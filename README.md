# mosint2025 search front end — a Dafny model

This project models the request logic of the `app.py` Flask application of mosint2025. The model covers:

- the login gate: `login`, `logout` and `login_required` over the session's `is_authenticated` flag;
- the search-form validator `validate_inputs`, applied to the stripped `uid` and `phone` fields;
- the lookups that fill the `results` and `column_names` dictionaries in place: `query_phone`, and `query_by_uid` with its loop over five (key, statement) pairs;
- the activity summary `summarize_profile_activity`;
- the shaping of the reaction statistics in `fetch_reaction_stats`, and the meaning of its grouped SQL query;
- the `index` view itself: validate, pick the phone or the uid branch, catch a database error, and render what was gathered.

The database is an oracle. A `DataStore` says whether a connection can be opened, and it maps each parameterised statement (`Store.Query`) to either a cursor description with the fetched rows, or a database error. `Store.Cursor` is the cursor object:

- `Execute` fails or loads the description and the rows;
- `FetchAll` hands the rows out;
- its `executed` field records every statement sent, so contracts can say which lookups a request performs.

Modules follow the program's parts:

- `Text`: Python's `str.strip()` and `str.isdigit()`.
- `Validation`: `validate_inputs`.
- `Store`: values, rows, statements, the cursor.
- `Lookup`: `query_phone` and `query_by_uid` as methods over a `ResultMaps` object that holds the two dictionaries. `QueryByUid` is proved against the specification function `RunLookups`; `QueryPhone` states its new maps directly.
- `Activity`: the summary.
- `Reactions`: the records of `fetch_reaction_stats`. It also holds `IsReactionAggregate`, the relational meaning of the `GROUP BY reac_type ... ORDER BY cnt DESC` query, with a reference implementation `GroupCounts`.
- `Web`: requests and flashes.
- `Search`: `index`. The method `Index` is proved equal to the specification functions `IndexReply` and `IndexQueries`.
- `Auth`: the session class and the gate.

Two behaviours of the code are worth stating up front:

- **Partial results.** A database error does not discard what was already looked up: `results` and `column_names` are filled in place before the error is raised, and the handler renders them after catching it (`app.py:153-175`). `Search.UidSearchPage` states this: the page shows exactly what the lookups wrote before the failure.
- **Bad rows in the statistics.** A statistics row that does not unpack into a (type, count) pair raises a Python `ValueError`. That is not a `psycopg2.Error`, so the view does not catch it. It is modelled as the reply `ServerError`.

## Model

| member | source | states |
|---|---|---|
| Text.Strip | app.py:136-137 | the stripped field has no leading and no trailing whitespace |
| Text.StripIsSlice | app.py:136-137 | `strip()` keeps a contiguous slice of its input and drops only an all-whitespace prefix and an all-whitespace suffix |
| Text.StripEmptyIff | app.py:136-137 | a field strips to the empty string exactly when it consists of whitespace only |
| Text.StripPadded | app.py:102 | whitespace on either side of a string with no surrounding whitespace is exactly what `strip()` removes |
| Text.StripIdempotent | app.py:136-137 | stripping an already stripped field changes nothing |
| Text.LeadingSpaces | app.py:136-137 | the run removed at the front is all whitespace and is followed by a non-whitespace character or the end |
| Text.TrailingSpaces | app.py:136-137 | the run removed at the back is all whitespace and is preceded by a non-whitespace character or the start |
| Validation.ValidateInputs | app.py:178-191 | conflict exactly when both fields are given; missing exactly when neither is; bad phone exactly when only the phone is given and it is not eight ASCII digits; accepted in every other case |
| Validation.Message | app.py:181-191 | each rejected verdict has its warning text, and only an accepted search has none |
| Validation.AcceptedHasOneField | app.py:181-191 | an accepted search names exactly one field, and a given phone is eight digits |
| Validation.BlankFieldsAreMissing | app.py:136-139 | fields made of whitespace only are reported as missing, because they are stripped before validation |
| Validation.ConflictBeforeFormat | app.py:181-189 | the both-fields check runs before the phone format check: any uid together with any malformed phone is a conflict, while the same phone alone is a bad phone |
| Validation.PhoneExamples | app.py:187-189 | seven or nine digits, or a non-digit, is rejected; eight digits are accepted |
| Store.Names | app.py:200 | the column names are the first entries of the description, in order |
| Store.Cursor.Execute | app.py:199 | the statement is recorded as sent; on success the description and rows are loaded; on error the message is returned and nothing is loaded |
| Store.Cursor.FetchAll | app.py:201 | returns the loaded rows and leaves nothing pending |
| Lookup.PhoneQuery | app.py:199 | the phone lookup selects from `fbphone` by the `eightdigitnumbers` column, with the phone as its parameter |
| Lookup.UidLookups | app.py:209-215 | five lookups with distinct keys; each selects from the table named by its key, with the uid as its parameter, and none selects by the phone-number column |
| Lookup.LookupInto | app.py:218-220 | one lookup sends its statement; on success it writes the key in both maps with the rows and the column names; on error neither map changes |
| Lookup.QueryPhone | app.py:194-201 | sends only the phone statement; on success it writes only "fbphone" in both maps; on error it writes nothing |
| Lookup.LookupEach | app.py:217-220 | the loop leaves both maps and the error as `RunLookups` says, and sends the statements up to and including the first that fails |
| Lookup.QueryByUid | app.py:204-220 | the same for the five uid lookups of `UidLookups` |
| Lookup.RunLookups | app.py:217-220 | a run of lookups never removes a key from either map |
| Lookup.FirstFailure | app.py:217-220 | the position of the first failing statement: every lookup before it succeeds, and the one at it fails |
| Lookup.RunLookupsOutcome | app.py:217-220 | a run ends in an error exactly when some statement fails, and then with that statement's message |
| Lookup.RunLookupsKeys | app.py:217-220 | a run adds to both maps exactly the keys of the lookups before the first failure |
| Lookup.RunLookupsFrame | app.py:217-220 | every other key keeps its old value, or stays absent, in both maps |
| Lookup.RunLookupsWrites | app.py:217-220 | with distinct keys, each written key holds its statement's rows and the names of its description |
| Lookup.UidLookupEffect | app.py:209-220 | for the five uid lookups: success exactly when all five statements succeed; the written keys, their rows and column names; every other key unchanged |
| Lookup.UidLookupKeyNames | app.py:209-215 | the uid lookups write under profiles, posts, comments, reactions and fbphone |
| Lookup.UidLookupKeys | app.py:209-220 | a uid lookup into empty maps writes only those five keys, the same keys in both maps, and all five when it completes |
| Activity.SummarizeProfileActivity | app.py:223-230 | the summary has exactly the keys post_count, comment_count and reaction_count; each is the length of its table's rows, or 0 when the table is absent |
| Activity.SummaryCountsLookedUpRows | app.py:159-160 | after a complete uid lookup, the three counts are the numbers of rows the store returned for posts, comments and reactions |
| Reactions.ToRecords | app.py:247 | defined exactly when every row is a pair; then one record per row, in order, with the row's type and count |
| Reactions.FetchReactionStats | app.py:233-247 | sends the grouped statement; a database error is returned as such; a row that is not a pair is an unpacking error; otherwise the records of the rows |
| Reactions.AggregateEmptyIff | app.py:238-242 | the grouped query returns no records exactly when the uid has no reactions |
| Reactions.AggregateCountsPositive | app.py:238-242 | every count of the grouped query is at least one |
| Reactions.AggregateTotal | app.py:238-242 | the counts add up to the number of reaction rows |
| Reactions.AggregateUnique | app.py:238-242 | two results of the grouped query over the same reactions hold the same records; only the order of equal counts can differ |
| Reactions.GroupCounts | app.py:238-242 | the reference implementation (group, count, sort by count descending) satisfies the aggregate predicate |
| Reactions.SortByCount | app.py:242 | insertion sort by count returns a permutation of its input (the same multiset of elements) in non-increasing order of count |
| Reactions.InsertSorted | app.py:242 | inserting before the first smaller count keeps the order |
| Reactions.Dedup | app.py:241 | one entry per group: distinct, and the same set of types |
| Reactions.LikeLoveAggregate | app.py:238-242 | the reactions like, love, like, like aggregate to like: 3, love: 1 |
| Reactions.LikeLoveExample | app.py:238-242 | the reactions like, love, like, like have no other aggregate |
| Reactions.StatsMeaning | app.py:233-247 | when the store answers the grouped query as its SQL means, the records are an aggregate of the reaction-type column of the uid's reaction rows: each type once with its number of occurrences, positive, non-increasing counts that add up to the number of rows |
| Web.FormGet | app.py:102-103 | `request.form.get(key, "")`: a present field's value as submitted; the empty string exactly when the field is absent or empty |
| Search.NoticeFlash | app.py:140-164 | a validation notice flashes its warning text in category "warning"; the database notice flashes in category "danger" |
| Search.Index | app.py:125-175 | the view's reply, the statements it sends, and whether it opens a connection are those of `IndexReply`, `IndexQueries` and `OpensConnection` |
| Search.SearchByUid | app.py:158-164 | the uid branch renders `UidReply` and sends the uid lookups up to the first failure, then the grouped statement only if all five succeeded |
| Search.ValidationFailureTouchesNothing | app.py:139-151 | a rejected search sends nothing and renders empty maps, no summary, no statistics and only the warning |
| Search.PhoneSearch | app.py:153-157 | a phone search sends only the phone statement and shows at most the "fbphone" table, with no summary and no statistics; on success it shows the rows with no notice; on a failure it shows the database notice |
| Search.UidSearchQueries | app.py:158-161 | a uid search sends the uid lookups up to the first failure, then the grouped statement only after all five; it never sends the phone-number lookup |
| Search.UidSearchPage | app.py:153-175 | without a connection the page is empty with the database notice; otherwise, on every exit path the page shows what the lookups wrote before any failure; a summary exactly when all five succeeded; statistics only when the grouped query also succeeded; the database notice exactly when some statement failed; a server error exactly when a statistics row does not unpack |
| Search.UidSearchStats | app.py:159-161 | under agreeing answers, a completed uid search shows statistics that are an aggregate of the reaction-type column of the reactions it shows: each type once with its number of occurrences, positive, non-increasing counts that add up to the summary's reaction count |
| Auth.Session.Login | app.py:99-115 | a submitted form whose stripped username and unstripped password match sets the flag and redirects to the search page with the success flash; any other submission flashes the failure, renders the form and leaves the flag; a plain visit only renders the form |
| Auth.Session.Logout | app.py:118-122 | clears the flag, flashes the signed-out message and redirects to the login page |
| Auth.LoginRequired | app.py:87-96 | the wrapped view runs exactly when the flag is set |
| Auth.GuardedIndex | app.py:87-96 | without the flag the request is redirected to the login page and sends nothing; with it the reply is that of `index` |
| Auth.CredentialsMatch | app.py:102-108 | a match needs both fields present and the password exactly the admin password |
| Auth.PaddedUsernameAccepted | app.py:102-108 | the admin username with any whitespace before and after it still matches |
| Auth.PasswordNotStripped | app.py:103-108 | the password is compared as typed: the admin password with anything appended never matches, whatever the username |
| Auth.MissingUsernameRejected | app.py:102-108 | a form without a username never matches |

## Left out

- Connecting to PostgreSQL (`get_db_connection`) and the `with` connection and cursor blocks are foreign I/O. A connection either opens or fails, as `DataStore.reachable` says. Each statement's result comes from the oracle `DataStore.answer`.
- The SQL itself is not executed or parsed. The grouped reaction query is given meaning only through `Reactions.IsReactionAggregate`. `Reactions.StatsAgree` is an assumption about the store: the grouped answer agrees with the rows of the plain reactions lookup, as it would inside one snapshot.
- Errors raised by `fetchall` are not modelled. A database error is raised only by `execute`, which is where a client-side cursor raises it.
- Flask routing, `render_template`, `redirect`/`url_for` and the storage of flashes in the session are framework plumbing. A reply names the endpoint or the values the template receives, and the flashes are returned as values.
- The session is reduced to its `is_authenticated` flag. Other session contents are not modelled.
- `Config` environment loading, the secret key, `DATASET_COUNTS` (passed unchanged to every rendering of `index.html`), `configure_logging`, the logging of database errors and `app.run` are configuration and I/O with no behaviour to verify.
- `Web.Get` stands for both GET and HEAD. Flask adds HEAD to every GET route and runs the view for it, so HEAD behaves as GET here: `index` renders the empty page, `login` renders the form, and `logout` clears the session. OPTIONS is answered by Flask without running a view, and no other method is routed. Neither is modelled.
- Text.IsDigits: Python's `str.isdigit()` also accepts non-ASCII digits, such as superscripts and other scripts' digits. The model admits only `0`–`9`.
- Text.IsSpace: it lists the code points that Python's `str.isspace()` accepts. There is no other Unicode handling.
