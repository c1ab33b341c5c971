# ExpoIntel core in Dafny

ExpoIntel is a trade-show planner. A FastAPI backend keeps expos, the
companies exhibiting at them, and per-user shortlists, networking contacts and
expo-day plans in MongoDB. A React Native client reaches the backend through
a small request gateway and keeps the signed-in user in an authentication
context. This project models three parts of it and proves what they promise:

- **Backend handlers** (`handlers.dfy`, `queries.dfy`). A class `Backend`
  holds one sequence per collection, in storage order. Each handler is a
  method on it. `find_one`, `update_one` and `delete_one` act on the first
  matching document, and `find(q).to_list(n)` returns the first `n` matches
  (`common.dfy`). The object invariant `Valid` says three things: e-mails are
  unique, there is at most one shortlist entry per (user, company, expo), and
  a company's stage is unset or one of the five stages. Every mutating handler
  preserves it. `get_companies` builds its Mongo filter field by field; the
  built filter is proved to admit exactly the companies that an independent
  reading of the parameters describes. `expo_filters` and
  `company_filter_options` are functions. Their lists are proved strictly
  ascending in Python's string order (`ordering.dfy`), and they hold exactly
  the non-empty values present.
- **Request gateway** (`gateway.dfy`, `formencoding.dfy`). Every call of the
  client's `api` object becomes a request: a URL, a method, headers and a
  body. Query strings follow the application/x-www-form-urlencoded serializer
  of the WHATWG URL Standard, and they are proved to parse back to their
  parameters. A non-ok response becomes an error message by the three-way rule
  exactly as it is written.
- **Session** (`session.dfy`). A class `AuthStore` holds the fields `user`,
  `loading` and `storedToken`, with one method per transition: rehydrate,
  login, register and logout. Each method is tied to a pure transition
  function, and the lemmas are stated about those functions. The start
  screen's routing decision is a function of the same state.

The caller's identity (`current_user`), password hashes, generated ids,
regular-expression matching, the stored token and the server's replies are
parameters of the operations that use them.

## Model

| member | source | states |
|---|---|---|
| `Handlers.Backend.Register` | backend/server.py:76-82 | A known e-mail gives 400 "Email already registered" and changes nothing. Otherwise one user is appended with role "user" and name `name or` the e-mail's local part, and the reply carries no password hash. E-mails stay unique and the other tables are unchanged. |
| `Handlers.EmailLocalPart` | backend/server.py:80 | `email.split("@")[0]`: the longest prefix without '@'. It is followed by '@' unless it is the whole e-mail. |
| `Handlers.Backend.UpdateStage` | backend/server.py:143-147 | A stage outside the five gives 400 with the listed message and leaves every company unchanged. A valid stage is written on the first company with that id, if there is one, and nothing else changes. |
| `Queries.CompanyQuery` | backend/server.py:124-133 | The built filter has an exact `expo_id` match iff expo_id is truthy, and a regex for industry, hq and name iff each is truthy. It has a revenue range iff a bound is given, with `$gte` = min iff min is given and `$lte` = max iff max is given. It has no other keys. |
| `Queries.QueryMeaning` | backend/server.py:124-134 | A filter of that shape matches a company iff the company meets every given parameter (the reference reading `Admits`). |
| `Handlers.Backend.GetCompanies` | backend/server.py:121-134 | The result is the first 500 companies, in table order, that meet every given parameter. When at most 500 do, it holds all of them. |
| `Common.Select` | backend/server.py:134 | `find(q).to_list(n)`: a prefix of the matches in table order, of length n or all of them when there are fewer. So it is exactly the first n matches. |
| `Common.FindFirst` | backend/server.py:180 | `find_one`: the index of the first match, and no match before it. `None` exactly when nothing matches. |
| `Common.DeleteFirst` | backend/server.py:196 | `delete_one`: the table without its first match, one occurrence fewer. Unchanged when nothing matches. |
| `Handlers.Backend.GetShortlists` | backend/server.py:163-176 | The listing is the caller's entries (of the given expo, if one is given), first 500 in order, each joined with its company and expo. With a stage, only entries whose company has that stage are kept, so entries without a company are dropped. |
| `Handlers.ListingMatchesJoin` | backend/server.py:167-175 | The loop's early `continue` leaves some entries without their expo. Those are exactly the entries the stage filter drops, so the result equals the filtered full join. |
| `Handlers.ListingScoped` | backend/server.py:164-175 | Every listed entry belongs to the caller and is of the requested expo. With a stage, its company is at that stage. |
| `Handlers.Backend.CreateShortlist` | backend/server.py:179-187 | An existing (user, company, expo) entry gives `already_exists` with its id and changes nothing. Otherwise one entry is appended with notes `notes or ""`. The first company with that id and an unset stage (""/"none") is moved to "prospecting"; every other company is untouched. |
| `Handlers.ShortlistTwice` | backend/server.py:180-181 | Creating the same triple twice: the second call returns `already_exists` with the first call's id, and at most one entry is added. |
| `Handlers.Backend.UpdateShortlist` | backend/server.py:190-192 | Only the caller's own entry with that id gets the new notes (an absent field counts as ""). Everything else is unchanged. |
| `Handlers.Backend.DeleteShortlist` | backend/server.py:195-197 | The first entry matching both the id and the caller is removed. Other users' entries all survive. |
| `Handlers.RemovalKeepsOnePerTriple` | backend/server.py:196 | Removing an entry keeps at most one entry per triple. |
| `Handlers.NetworkUpdates` | backend/server.py:228-236 | The updates hold a key iff that form field was supplied (not None), with the supplied value, and no other keys. Applying them with `$set` replaces exactly the supplied fields of an entry. |
| `Handlers.Backend.UpdateNetwork` | backend/server.py:224-237 | Only the caller's own entry is touched, and only the supplied fields change. With no field supplied, nothing changes. |
| `Handlers.Backend.DeleteNetwork` | backend/server.py:240-242 | The first entry matching both the id and the caller is removed. Other users' entries survive. |
| `Handlers.Backend.CreateExpoDay` | backend/server.py:258-264 | Appends one entry with status "planned", meeting type defaulting to "booth_visit" and booth and notes defaulting to "". Nothing else changes. |
| `Handlers.ExpoDayUpdates` | backend/server.py:268-270 | The status key is present iff status is non-empty. The notes key is present iff notes was supplied, even when empty. |
| `Handlers.Backend.UpdateExpoDay` | backend/server.py:267-273 | On the caller's own entry only: status is replaced when non-empty, and notes whenever supplied. |
| `Handlers.Backend.DeleteExpoDay` | backend/server.py:276-278 | The first entry matching both the id and the caller is removed. Other users' entries survive. |
| `Handlers.ExportRow` | backend/server.py:322-325 | The row is the document without `_id` and `user_id`, in its key order, followed by company_name and expo_name. These carry the names of the company and the expo that the document's ids join to. |
| `Handlers.CompanyName` | backend/server.py:322-325 | The name of the first company whose id is the document's `company_id`, or "" when no company has that id. |
| `Handlers.ExpoName` | backend/server.py:323-325 | The name of the first expo whose id is the document's `expo_id`, or "" when no expo has that id. |
| `Handlers.ExportLoop` | backend/server.py:321-326 | The loop yields one row per document, in order: row k is built from document k. |
| `Handlers.Backend.ExportCsv` | backend/server.py:314-332 | A collection other than shortlists, networks or expo-days gives 400 "Invalid collection". Otherwise the rows are the export rows of the caller's documents (first 500), no row has `_id` or `user_id`, and the filename is `<collection>_export.csv`. |
| `Records.Get` | backend/server.py:322 | `doc.get(key)`: the value of the first pair with that key, and "" when no pair has it. |
| `Queries.ExpoFilters` | backend/server.py:114-117 | Regions and industries are each strictly ascending, and each holds exactly the non-empty values present among the expos. |
| `Ordering.SortedDistinct` | backend/server.py:117 | `sorted(v for v in distinct(vals) if v)`: strictly ascending, and a value is in it iff it is non-empty and among the inputs. |
| `Ordering.NoRepeats` | backend/server.py:115-117 | A strictly ascending list, such as the filter lists, holds no value twice, as `distinct` promises. |
| `Ordering.BelowTotal` | backend/server.py:117 | Python's string order is total on distinct strings, which is what lets `sorted` produce a strict order. |
| `Ordering.BelowTransitive` | backend/server.py:117 | Python's string order is transitive. |
| `Queries.CompanyFilterOptions` | backend/server.py:150-159 | With no matching company, the answer is [], [], 0, 1000. Otherwise the industry and hq lists are strictly ascending with exactly the non-empty values of the matching companies, and min/max are attained revenue bounds of those companies. |
| `Queries.MinRevenue` | backend/server.py:154 | `$min`: a revenue of the group, no larger than any. |
| `Queries.MaxRevenue` | backend/server.py:154 | `$max`: a revenue of the group, no smaller than any. |
| `Queries.OptionsRangeOrdered` | backend/server.py:152-159 | The offered revenue range never runs backwards. |
| `Queries.OptionsComeFromExpo` | backend/server.py:151-157 | Every industry offered for an expo is the industry of a company of that expo. |
| `Gateway.AuthHeaders` | frontend/src/api.ts:9-14 | Always `Content-Type: application/json`. `Authorization: Bearer <token>` is present iff the stored token is truthy. There are no other headers. |
| `Gateway.FormHeaders` | frontend/src/api.ts:29-31 | The header map passed to `fetch` for a form request holds only `Authorization`, present iff the token is truthy, and no Content-Type. |
| `Gateway.JsonRequest` | frontend/src/api.ts:16-19 | `request`: the header keys are exactly the defaults' keys plus the caller's, so every default the caller does not override is sent (Authorization included). The caller's headers win over the defaults. The method is GET unless given. |
| `Gateway.WithQuery` | frontend/src/api.ts:62-65 | Empty iff there are no params; otherwise `?` followed by the serialized params, with no other `?`. |
| `Gateway.Send` | frontend/src/api.ts:53-133 | For every call: the URL is base + `/api` + its path. `Authorization` is present iff the token is truthy, and equals `"Bearer " + token`. Content-Type `application/json` is present iff the call goes through `request`. `formRequest` posts and `formPut` puts the call's fields. |
| `Gateway.ListQuery` | frontend/src/api.ts:62-111 | getExpos, getCompanies, getShortlists, getNetworks and getExpoDays put a `?` in the URL iff their params are non-empty, followed by the serialized params. |
| `Gateway.QueryMark` | frontend/src/api.ts:63-64 | After a `?`-free path, the query has a `?` iff there are params, and the text after it parses back to the params. |
| `Gateway.FormBodies` | frontend/src/api.ts:75-124 | updateNetwork and updateExpoDay put exactly the entries of `data`. updateStage and updateShortlist put their one field. uploadCSV posts exactly `file_content` and `expo_id`. |
| `Gateway.RequestBodies` | frontend/src/api.ts:55-118 | addToShortlist posts notes as "" when absent. The deletes send DELETE with no body. getMe and the list calls are bodiless GETs. |
| `Gateway.ExpoIdParameter` | frontend/src/api.ts:79-129 | getCompanyFilters and exportCSV add `?expo_id=<id>`, unencoded, exactly when the expo id is truthy. |
| `Gateway.BearerFormat` | frontend/src/api.ts:12 | A header built from a `b64token` is well-formed `Bearer` credentials in the sense of section 2.1 of RFC 6750. |
| `Gateway.UnpaddedJwtIsToken` | backend/server.py:32-33 | The backend's tokens (unpadded three-part JWTs) are `b64token`s. |
| `Gateway.Settle` | frontend/src/api.ts:20-24 | An ok response resolves with its parsed body, or rejects when the body does not parse. A non-ok response always rejects. |
| `Gateway.ErrorRule` | frontend/src/api.ts:20-23 | An unparseable body gives "Request failed" whatever the status. A `null` body throws a TypeError. A truthy `detail` becomes the message. Any other parsed body gives `HTTP <status>`, and the status can be read back from that message. |
| `Gateway.LastMember` | frontend/src/api.ts:22 | `err.detail`: the value of the last member named `detail`, as `JSON.parse` keeps the last of repeated keys, or none when there is no such member. |
| `Gateway.DecimalRoundTrip` | frontend/src/api.ts:22 | The decimal digits written for a status read back as that status. |
| `FormEncoding.Utf8` | frontend/src/api.ts:63 | The shortest form: 1, 2, 3 or 4 bytes exactly when the code point is below 0x80, 0x800, 0x10000 or above. A single byte equals the code point. A multi-byte form has the lead byte of its length (110xxxxx, 1110xxxx, 11110xxx) and continuation bytes 10xxxxxx. |
| `FormEncoding.Utf8Decodes` | frontend/src/api.ts:63 | The UTF-8 bytes of a character decode back to its code point. |
| `FormEncoding.EncodeComponent` | frontend/src/api.ts:63 | A serialized name or value holds only unreserved characters, `+` and `%`, so never `&`, `=`, `?` or `#`. |
| `FormEncoding.PlainComponent` | frontend/src/api.ts:63 | Letters, digits, `*`, `-`, `.`, `_` go out unchanged and each space becomes `+`, so `region=Europe` is sent as it is. |
| `FormEncoding.ParseSerialize` | frontend/src/api.ts:63 | Parsing the serialized bytes gives the bytes back. |
| `FormEncoding.ComponentRoundTrip` | frontend/src/api.ts:63 | A serialized name or value parses back to its UTF-8 bytes. |
| `FormEncoding.QueryString` | frontend/src/api.ts:63 | Empty iff there are no params, and never contains `?` or `#`. |
| `FormEncoding.QueryRoundTrip` | frontend/src/api.ts:63 | Parsing the query string gives back every entry in order, as the UTF-8 bytes of its name and value. |
| `Session.AuthStore.constructor` | frontend/src/contexts/AuthContext.tsx:26-27 | The store starts in the initial state. |
| `Session.AuthStore.Rehydrate` | frontend/src/contexts/AuthContext.tsx:29-43 | The new state is the rehydrate transition of the old one. `getMe` is sent, with the stored token, iff storage was read and held a truthy token. |
| `Session.RehydrateFailsClosed` | frontend/src/contexts/AuthContext.tsx:37-40 | When reading storage or `getMe` fails, the token is removed, the user is left as it was, and loading ends. |
| `Session.RehydrateFromStart` | frontend/src/contexts/AuthContext.tsx:30-41 | From the initial state, a user is set iff a truthy token was read and `getMe` answered, and it is that answer. Without a token the app goes to login without asking the server. A failed `getMe` removes the token and goes to login. |
| `Session.LoadingStaysOff` | frontend/src/contexts/AuthContext.tsx:27-60 | Once loading is false, no transition sets it back. |
| `Session.AuthStore.Login` | frontend/src/contexts/AuthContext.tsx:45-49 | Sends the login request with the current token. On success it stores the token and sets the user. A rejection is propagated and changes nothing. |
| `Session.AuthStore.Register` | frontend/src/contexts/AuthContext.tsx:51-55 | The same for register. |
| `Session.AuthStore.Accept` | frontend/src/contexts/AuthContext.tsx:46-48 | What login and register do once their call has settled. |
| `Session.FailedSignInKeepsState` | frontend/src/contexts/AuthContext.tsx:46 | A rejected login or register leaves the token and the user as they were. |
| `Session.SignInAuthorizes` | frontend/src/contexts/AuthContext.tsx:45-49 | After a successful sign-in, every request carries `Bearer <new token>` and the app routes to the tabs. |
| `Session.AuthStore.Logout` | frontend/src/contexts/AuthContext.tsx:57-60 | The token is removed and the user cleared. |
| `Session.LogoutIsFinal` | frontend/src/contexts/AuthContext.tsx:57-60 | After logout, no request carries a token and the app routes to login. A later rehydration asks nothing and signs no one in. |
| `Session.SignOutAndRestart` | frontend/src/contexts/AuthContext.tsx:29-60 | Start, sign in, log out, start again: the second start sends no request and lands on login. |

## Left out

- Database and network I/O: Mongo, `fetch` and device storage are replaced by
  in-memory sequences, a response value and a single token slot. Each handler
  and each client call is one atomic step.
- Password hashing, JWT signing and verification, and `current_user` are
  opaque. The caller id and the password hash are parameters.
- Handlers.Backend.Register: the reply is the public user only. The `token`
  member of the source's reply (server.py:82) is dropped, because signing is
  not modelled.
- uuid and `created_at` generation: new ids are parameters, and timestamps
  are not part of the documents. So export rows have no `created_at` column.
- Case-insensitive `$regex` matching is the parameter `rx`.
- Company revenue is an exact real, not a float.
- The CSV text of `export_csv`: `csv.DictWriter` output is not modelled; the
  rows and the filename are.
- Handlers outside the modelled core: `get_expos`, `get_expo`, `get_company`,
  backend `login`, `get_me`, `get_networks`, `create_network`,
  `get_expo_days`, `upload_csv` (CSV parsing, contacts JSON, revenue
  stripping), `get_users`, `seed_data` and the health route. The `sort`
  of `get_expo_days` and the `company_count` joins are left out too.
- A missing, `null` or empty string field in a stored document is the empty
  string. So a `find_one({"id": None})` on a document with no `company_id`
  is not distinguished.
- Queries.FieldOf: for `get_companies`, an `industry`, `hq` or `name` field
  that is missing or `null` is read as "". Mongo's `$regex` never matches a
  missing or `null` field, but a pattern such as `^` matches "". So the model
  admits such companies where the store would not.
- Gateway: JSON bodies are sequences of string members. `createNetwork` and
  `createExpoDay` take any object in the source, and non-string members are
  not modelled. A non-string truthy `detail` (such as a validation error
  list) is kept as a value: the text `String(detail)` is not computed.
- Gateway: a `params` or `data` record is its entries in insertion order.
  JavaScript lists integer-like keys first, and that reordering is not
  modelled.
- Gateway: `API_BASE` is a string parameter. An unset environment variable
  (which the source would render as `undefined`) is not modelled.
- Gateway: the form parser gives back UTF-8 bytes. Decoding those bytes to a
  string is proved one character at a time (`FormEncoding.Utf8Decodes`), not
  for whole strings.
- Gateway.ListQuery: the parse-back of the query is stated once, for any
  `?`-free path, by the `Gateway.QueryMark` lemma, rather than repeated
  per list call.
- Session: the API replies are given already decoded (`Answer`). The failure
  of `AsyncStorage.setItem` or `removeItem`, and React's scheduling of state
  updates, are not modelled.
- Session: the sign-in forms' own checks (non-empty fields, password of at
  least four characters) belong to the screens and are not modelled.
- The start screen's fire-and-forget `api.seed()` call is not modelled.
