# Employees API handler — a verified model

`lambda_function.py` is an AWS Lambda handler behind an API Gateway for an
`Employees` DynamoDB table. This project models its request logic in Dafny:

- **Routing** (`Routing`): the handler joins `httpMethod` and the resource
  template with one space and compares the line with five fixed strings
  (`PUT /employees`, `GET /employees/{id}`, `DELETE /employees/{id}`,
  `GET /employees/search`, `GET /employees`); anything else raises `ValueError`.
- **Create or update** (`Handler.PutRoute`, `Handler.PutRequest`): a body whose
  `id` is missing or falsy gets a fresh id and, if `EmployeeCreate` accepts it,
  is stored whole; otherwise `EmployeeUpdate` must accept it, `id` is deleted
  from it, and the remaining fields are sent as a `set` update built by
  `get_update_params`.
- **validate_obj** (`Validation`): the two pydantic models as field lists.
  `EmployeeCreate` requires all ten fields as strings. `EmployeeUpdate`
  requires `id` as a string and allows every other field to be absent, null or
  a string. Undeclared keys are ignored. The error lists one complaint per
  refused field, in declaration order.
- **get_update_params** (`UpdateParams.GetUpdateParams`): the loop that lists
  `"set "` and `" k = :k,"` pieces, joins them and drops the last character,
  proved equal to the comma-separated expression (`UpdateExpression`) and to
  the placeholder map (`UpdateValues`).
- **Search** (`Pagination`, `Handler.SearchPath`): `int()` on `page` and
  `page_size` (defaults 1 and 10), the scan loop that appends continuation
  pages, the Python slice of one page (negative bounds included) and
  `total_page = len // page_size + 1` with Python's floor division.
- **Response envelope** (`Handler.Finish`, `Handler.LambdaHandler`): status 200
  unless a `ValueError` was raised, the error's own JSON for a validation
  failure, `json.dumps` otherwise, and the three CORS headers on every
  response. Exceptions other than `ValueError` escape. The except clause as
  written reads `err.message`, which Python 3 exceptions lack, so there every
  `ValueError` escapes as `AttributeError` (`Handler.FinishAsWritten`). The
  handler model (`Handler.Finish`, `Handler.Handle`, `Handler.LambdaHandler`)
  reads the message with `str(err)` and answers 400, as the code evidently
  intends; see "## Findings".

Python's own behaviour is written out where the handler depends on it:
- dicts keep insertion order: `d[k] = v` keeps an existing key's place, and `del` keeps the order of the rest;
- truthiness of the decoded `id`;
- slice-bound clamping;
- floor division;
- `int()` accepts an optional sign followed by digits.

Faults the code does not catch become `Outcome.Raised`:
- `json.loads(None)` raises `TypeError`;
- a JSON body that is not an object raises `AttributeError` on `.get`;
- a search without a query string raises `AttributeError`;
- `page_size=0` raises `ZeroDivisionError`.

`Handler.Handle` is the handler as a function of the event, the store, the
fresh id and the scan pages. `Handler.LambdaHandler` runs the same steps
against a `Store.Table` object and is proved to agree with it.

Two behaviours of the code are reproduced as written:
- `total_page` counts one page more than holds items when the item count is a
  multiple of the page size, or zero (`Pagination.TotalPageOffByOne`,
  `Pagination.LastCountedPage`: 20 items at size 10 give 3).
- The continuation scans carry no filter, so their items join the search
  result unfiltered (`Store.Flatten` of the given pages).

Validation failures are answered with status **200** and the error's JSON
(lambda_function.py:100-105, 119-120, 172-173), not 400. Only `ValueError`
sets 400 (lambda_function.py:168-169). The model follows the code.

## Model

| member | source | states |
|---|---|---|
| Json.Truthy | lambda_function.py:98 | Python's truth value of a decoded value, read by `not obj.get('id')` |
| Json.Get | lambda_function.py:98 | `obj.get(k)` is present exactly when `k` is one of the body's keys |
| Json.Set | lambda_function.py:99 | `obj['id'] = v` binds `id` to `v` and leaves every other key's value alone; an existing key keeps its position, a new one goes last |
| Json.Without | lambda_function.py:111 | the key list without `k` holds exactly the other keys, stays duplicate-free and is one shorter when `k` was present |
| Json.Del | lambda_function.py:111 | `del obj["id"]` makes `id` absent, keeps every other binding, and keeps the remaining keys in order |
| Validation.Errors | lambda_function.py:60-66 | the reported errors are empty exactly when every declared field is accepted; every refused field has its complaint, and every complaint comes from a refused field |
| Validation.ValidateObj | lambda_function.py:60-66 | `validate_obj` is Valid exactly when every declared field is accepted; otherwise the error names the model and is non-empty |
| Validation.CreateValidIff | lambda_function.py:25-35 | EmployeeCreate accepts an object exactly when all ten declared fields are present as strings |
| Validation.CreateRejectsMissing | lambda_function.py:25-35 | a missing declared field makes EmployeeCreate refuse, with a Missing complaint for that field |
| Validation.ErrorsIgnoreUndeclared | lambda_function.py:63 | binding a key no field declares leaves the reported errors unchanged |
| Validation.CreateIgnoresUndeclared | lambda_function.py:25-35 | EmployeeCreate's verdict is unchanged by setting a key it does not declare |
| Validation.UpdateValidIff | lambda_function.py:37-48 | EmployeeUpdate accepts exactly when `id` is a string and each other declared field is absent, null or a string |
| UpdateParams.PlaceholderInjective | lambda_function.py:56 | distinct keys get distinct `:key` placeholders |
| UpdateParams.UpdateValues | lambda_function.py:52-56 | the value map's keys are exactly `:k` for the body's keys, each bound to `body[k]` |
| UpdateParams.ConcatSuffixed | lambda_function.py:55-58 | joining pieces that each end in a comma is the comma-separated join plus one trailing comma |
| UpdateParams.JoinEndsWithLast | lambda_function.py:58 | a join ends with its last part |
| UpdateParams.TrimmedJoin | lambda_function.py:58 | joining `"set "` and the comma-ended pieces, then dropping the last character, gives `set ` plus the comma-separated assignments, or `set` for an empty body |
| UpdateParams.LoopStep | lambda_function.py:54-56 | one loop turn appends ` key = :key,` to the pieces and binds `:key` to the key's value |
| UpdateParams.GetUpdateParams | lambda_function.py:50-58 | the returned expression is `"set"` for an empty body, else `"set "` plus ` k = :k` for each key in iteration order joined by `,`; the value map is UpdateValues |
| UpdateParams.UpdateExpression | lambda_function.py:51-58 | the expression as the comma-separated join: `set` for an empty body, else `set ` and ` k = :k` per key joined by `,` |
| UpdateParams.ExpressionEndsWithLastPlaceholder | lambda_function.py:58 | for a non-empty body the expression ends with the last key's placeholder, so no comma trails |
| UpdateParams.SingleFieldExpression | lambda_function.py:51-58 | a one-field body gives `set  k = :k`, with two spaces after `set` |
| UpdateParams.NoPlaceholderForAbsentKey | lambda_function.py:56 | a key not in the body has no placeholder in the map, so no `:id` once `id` is deleted |
| UpdateParams.ValuesAssignBody | lambda_function.py:112-118 | the update built from the placeholder map assigns exactly the body's fields their values |
| Store.Assigned | lambda_function.py:113-118 | a `set` update assigns each placeholder's name its value, and only names that have a placeholder |
| Store.AfterUpdate | lambda_function.py:113-118 | after an update the item under the key holds the assigned attributes and keeps the others, and has no attributes beyond those; other items are unchanged; an absent item is created with its id |
| Store.ItemsWithId | lambda_function.py:124 | the items whose id is the key: the one stored under it, or none |
| Store.Table.constructor | lambda_function.py:88 | the table starts with the given items |
| Store.Table.PutItem | lambda_function.py:103 | the item replaces whatever was stored under its id |
| Store.Table.UpdateItem | lambda_function.py:113-118 | returns the assigned attributes, the store becomes AfterUpdate, and the request (key, expression, values) is appended to the table's record of update requests |
| Store.Table.DeleteItem | lambda_function.py:128 | nothing is stored under the key afterwards and nothing else changes |
| Store.Table.Query | lambda_function.py:124 | returns ItemsWithId: the item under the key, or no items |
| Routing.RequestLine | lambda_function.py:89 | the request line is the method, one space and the resource |
| Routing.RouteOf | lambda_function.py:94-167 | the action by exact equality with the five request lines, in the order tested; anything else is unrecognized |
| Routing.SplitAtSpace | lambda_function.py:89 | a line `method + " " + resource` equals a route line exactly when method and resource both match (no spaces in the route's parts) |
| Routing.RouteIff | lambda_function.py:89-167 | each action is chosen exactly for its (method, resource) pair; every other pair is unrecognized |
| Pagination.ParseInt | lambda_function.py:136-137 | `int(s)`: an optional sign and one or more decimal digits; None where Python raises ValueError |
| Pagination.QueryInt | lambda_function.py:136-137 | `int(params.get(key, default))` |
| Pagination.NatStringDigits | lambda_function.py:136-137 | the decimal writing of a natural number is all digits and denotes it |
| Pagination.ParseIntRoundTrip | lambda_function.py:136-137 | `int(str(n)) == n` for every integer |
| Pagination.CollectScan | lambda_function.py:149-153 | the loop returns the first page's items followed by every continuation page's items, in order |
| Pagination.SliceBound | lambda_function.py:158 | a slice bound lands within the sequence |
| Pagination.PySlice | lambda_function.py:158 | Python's `s[lo:hi]` with negative bounds counted from the end and clamping |
| Pagination.PageWindow | lambda_function.py:158 | `data[(page-1)*page_size : (page-1)*page_size + page_size]` |
| Pagination.PageWindowContents | lambda_function.py:158 | for page and page size of at least 1, the window is the items from `(page-1)*page_size` on, at most `page_size` of them |
| Pagination.PageWindowBounds | lambda_function.py:158 | the window holds at most `page_size` items and is empty exactly when the start offset reaches the item count |
| Pagination.FloorDiv | lambda_function.py:161 | Python's `//` on integers |
| Pagination.TotalPage | lambda_function.py:161 | `total_items // page_size + 1` |
| Pagination.FloorDivIsFloor | lambda_function.py:161 | `x // y` is the floor of the quotient for either sign of `y` |
| Pagination.TotalPageOffByOne | lambda_function.py:161 | `total_page` is the ceiling of `len/page_size`, plus one exactly when `page_size` divides `len` |
| Pagination.LastPageStart | lambda_function.py:158-161 | the page numbered `total_page` starts after the last whole page |
| Pagination.LastCountedPage | lambda_function.py:155-161 | the page numbered `total_page` is empty at exact multiples and otherwise holds the remainder |
| Pagination.PagesBeforeTotalHaveItems | lambda_function.py:155-161 | every page numbered below `total_page` holds items |
| Pagination.PagingExample | lambda_function.py:157-161 | 25 items at size 10: pages of 10, 5 and 0 items, `total_page` 3; 20 items also give 3 |
| Handler.IsCreate | lambda_function.py:98 | a body asks for a create when its `id` is missing or falsy |
| Handler.CreatePath | lambda_function.py:98-105 | the create branch: set `id` to the fresh id, validate with EmployeeCreate, store the whole body under the fresh id or answer with the refusal |
| Handler.UpdatePath | lambda_function.py:106-120 | the update branch: validate with EmployeeUpdate, then assign the body's other fields to the item under its id, or answer with the refusal |
| Handler.PutRoute | lambda_function.py:94-120 | the `PUT /employees` branch as a function: `TypeError` for no body, `ValueError` for malformed JSON, `AttributeError` for a non-object, then create or update |
| Handler.PutUpdateCalls | lambda_function.py:107-118 | the update_item request a PUT body leads to: for an accepted update, the body's id with UpdateExpression and UpdateValues of the body without `id`; none otherwise |
| Handler.UpdateCalls | lambda_function.py:94-118 | the update_item requests the handler sends for an event: those of the PUT branch, none for other routes |
| Handler.SearchPath | lambda_function.py:131-162 | the search branch as a function: `AttributeError` without a query string, `ValueError` for an unparsable `page_size` or `page`, `ZeroDivisionError` for page size 0, otherwise the window, page, size and `total_page` |
| Handler.Try | lambda_function.py:93-167 | the try statement: the route's result and the store after it |
| Handler.Finish | lambda_function.py:168-175 | the except and finally clauses with `str(err)`: 200 and the serialised body, 400 with the message for a ValueError, any other exception escapes |
| Handler.FinishAsWritten | lambda_function.py:168-175 | the except and finally clauses as written: a ValueError escapes as AttributeError |
| Handler.Handle | lambda_function.py:86-184 | the handler, with `str(err)` in the except clause, as a function of event, store, fresh id and scan pages |
| Handler.PutRequest | lambda_function.py:94-120 | the `PUT /employees` branch run against the table returns and stores what PutRoute says, and sends exactly the update_item requests of PutUpdateCalls |
| Handler.SearchRequest | lambda_function.py:131-162 | the search branch returns what SearchPath says |
| Handler.LambdaHandler | lambda_function.py:70-184 | the handler's outcome and the table afterwards are those of Handle, with the except clause reading `str(err)` (not `err.message`, see Findings); it sends exactly the update_item requests of UpdateCalls |
| Handler.UnrecognizedIs400 | lambda_function.py:166-169 | with `str(err)` in the except clause, an unrecognized request line is answered 400 with `Unrecognized request "<line>"` and the store is untouched (as written it escapes as AttributeError) |
| Handler.EnvelopeShape | lambda_function.py:168-184 | with `str(err)` in the except clause, a returned response carries the CORS headers; status 400 exactly when a ValueError was raised, 200 exactly when the try completed |
| Handler.RaisedOnlyFor | lambda_function.py:93-175 | with `str(err)` in the except clause, an exception escapes exactly for a PUT whose body is absent or not an object, or a search without a query string or with page size 0 (as written, every ValueError escapes too) |
| Handler.CreateVerdictIgnoresId | lambda_function.py:99-100 | setting `id` does not change EmployeeCreate's verdict |
| Handler.CreateStoresBodyWithFreshId | lambda_function.py:98-103 | an accepted create stores the body with `id` set to the fresh id, every other key as sent, under the fresh id; no other item changes |
| Handler.UpdatePathAssignsFields | lambda_function.py:107-118 | an accepted update assigns the body's fields other than `id` to the item under the body's `id` |
| Handler.UpdateRequestOmitsId | lambda_function.py:107-118 | an accepted update sends one request keyed by the body's id, whose expression assigns the body's keys other than `id`, in order, and whose value map binds no `:id` |
| Handler.UpdateAssignsOnlyNamedFields | lambda_function.py:107-118 | a PUT with a truthy, accepted `id` updates the item under that id with exactly the other fields, and sends no `:id` placeholder |
| Handler.CreatePathRejects | lambda_function.py:100-105 | a body EmployeeCreate refuses is answered with that refusal and nothing is stored |
| Handler.UpdatePathRejects | lambda_function.py:107-120 | a body EmployeeUpdate refuses is answered with that refusal and nothing is stored |
| Handler.CreateRefusalWritesNothing | lambda_function.py:98-105 | a refused create leaves the store unchanged and is answered 200 with the error's JSON |
| Handler.UpdateRefusalWritesNothing | lambda_function.py:106-120 | a refused update leaves the store unchanged and is answered 200 with the error's JSON |
| Handler.RejectedBodyWritesNothing | lambda_function.py:100-120 | on either path a refused body writes nothing, and the response is 200 with the error's own JSON, not `json.dumps` |
| Handler.DeleteIsIdempotent | lambda_function.py:126-129 | delete answers 200 whether or not the id was stored, and afterwards nothing is stored under it |
| Handler.SearchReturnsWindow | lambda_function.py:155-162 | for page and size of at least 1: the items are the window of the scanned data, at most `page_size`, none once the start reaches the end; page and size echoed; `total_page = len // page_size + 1` |
| Handler.SearchDefaults | lambda_function.py:136-137 | without `page` and `page_size` the search reads page 1 of size 10 |
| Handler.ValueErrorEscapesAsWritten | lambda_function.py:168-170 | as written, any ValueError escapes as AttributeError; read with `str(err)` it becomes a 400 response with its message |
| Handler.UnrecognizedRequestAsWritten | lambda_function.py:166-170 | `POST /employees` raises AttributeError as written, and is answered 400 once the message is read with `str(err)` |

## Left out

- DynamoDB is modelled as a map from `id` to item (`Store.Table`), which also records every update_item request it receives. Expressions are not parsed: an update is taken to assign what its value map names. Store errors are not modelled, nor the `ResponseMetadata` of replies, nor query and scan result shapes beyond their items.
- Store.Table.UpdateItem: accepts every request. So an update whose body holds only `id` is answered 200 with an empty `UpdateItemReply` and creates `{"id": key}` when the item is absent. DynamoDB refuses the bare `set` expression with empty `ExpressionAttributeValues`, and that ClientError, not a ValueError, escapes the handler.
- The email filter of the first search scan is not evaluated. The scan pages are parameters (`Handler.Scans`), with the first page already filtered. Continuation pages are taken as given, unfiltered, as the code requests them.
- pydantic is reduced to presence and string type. `Optional[str]` fields are treated as not required, which is the pydantic v1 rule; under pydantic v2 an absent `Optional` field without a default is refused. Version-dependent coercion is not modelled, e.g. a number accepted as `str`. Nor is the JSON layout of `ValidationError.json()`: the error is the value `Validation.ValidationError`.
- `json.loads` and `json.dumps` are left out. The body arrives already classified (`Handler.RawBody`), and a serialised response body is a `Serialized` value, not a string. `json.dumps` of `Decimal` values returned by the store is not modelled.
- JSON numbers are integers only. Floating point is not modelled.
- `uuid.uuid4()` is the parameter `freshId`. `print` logging and the unused `context` argument are left out.
- The helpers at lambda_function.py:10-23 are not part of this model. The handler never calls them.
- Handler.IntError: quotes the offending value with plain single quotes. Python quotes it with `repr`, so a value containing `'` or a backslash gets a different message.
- `int()` is modelled as an optional sign followed by ASCII digits. Surrounding whitespace, underscores and non-ASCII digits, which Python also accepts, are not modelled.
- The event's `httpMethod`, `resource` and `pathParameters.id` are taken to be present strings. The `TypeError` or `AttributeError` raised when they are missing is not modelled.
- The `op` query parameter is read but never used. `email_address` is used only by the filter, which is left out as above.
- Handler.LambdaHandler: follows the corrected except clause, `str(err)`. As written, `err.message` raises AttributeError, so every ValueError escapes the handler instead of becoming a 400 response. `Handler.FinishAsWritten` models that, and `Handler.UnrecognizedRequestAsWritten` and `Handler.ValueErrorEscapesAsWritten` prove it.
- Handler.SearchReturnsWindow: states the window only for `page >= 1` and `page_size >= 1`. Other values follow Python's negative-index slicing, which `Handler.SearchPath` models but no lemma describes.

## Findings

| source | as written | input that shows it | evidently intended | confidence | as-written member | corrected member |
|---|---|---|---|---|---|---|
| lambda_function.py:168-170 | `body = err.message` on a caught ValueError; Python 3 exceptions have no `message`, so the except clause raises AttributeError, which escapes after the finally clause | `httpMethod="POST"`, `resource="/employees"` (any unrecognized line, a malformed JSON body, or `page=abc`) | status 400 with the error's message as body, via `str(err)` | high, not executed | Handler.FinishAsWritten (shown by Handler.UnrecognizedRequestAsWritten) | Handler.Finish (proved in Handler.UnrecognizedIs400, Handler.EnvelopeShape) |
