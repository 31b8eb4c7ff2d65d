# flow — a verified model of its router, migration runner, generator and application shell

This project models the core of *flow*, a small Go web framework. It covers:

- the segment router;
- the SQL migration runner;
- the field-spec parser and string assembly of the code generator;
- the application shell with its middleware stack and lifecycle;
- the template view manager.

Each part is written in Dafny and its properties are proved.

- **Router** (`router.dfy`, internal/router/router.go). Path normalisation, the splitting of patterns into segments, and structural matching with capture of `:name` parameters. Also the ordered route table built by `Handle`, `HandleNamed`, the verb helpers and `Resources`, the dispatch decision of `ServeHTTP`, and reverse `URL` building.
  - Registration panics become a `Fatal` error, and the table is left unchanged.
  - A dispatch returns a decision (run this route, method not allowed, not found) rather than writing a response.
  - `Router` is a class whose route table is a `seq` field. Its methods are proved against pure step functions.
- **Chain** (`chain.dfy`). The nesting of middleware around a handler. Both the router and the application stack use it: the first middleware is outermost.
- **Migrations** (`migrations.dfy`, internal/migrations/migrations.go). The runner reads and writes only two things: the `flow_migrations` ledger and the list of files whose SQL was committed. A `Database` class holds both.
  - `ApplyAll` and `PendingMigrations` loop over the sorted up files. `ListMigrations` loops over the walked entries and sorts what it keeps. `CollectFiles` loops over the directory entries. `RollbackLast` and `ApplySingle` are straight-line code. Each method is proved against a specification function.
  - Lemmas cover the rest: the ledger only grows under apply; rollback removes exactly the most recently applied entry; applying twice is idempotent; pending is the set difference of files and ledger.
- **Fields** (`fields.dfy`, internal/generator/utils.go). Parsing of `name[:type[,opt[,opt=value]]]` field specs: type mapping, option flags, defaults, precision and scale.
- **Generator** (`generator.dfy`, internal/generator/generator.go). What the generator assembles:
  - struct field lines and migration column lines;
  - index statements and migration file names;
  - the order of the files a scaffold creates;
  - `generateFile`'s refusal to overwrite an existing file.

  The file system is a map from path to contents.
- **FlowView** (`view.dfy`, pkg/flow/view.go). The `ViewManager` class: template lookup below a directory, with layouts, partials and shared helpers. Parsed sets are cached by name unless development mode is on.
- **FlowApp** (`app.dfy`, pkg/flow/app.go). Construction of the `App` from defaults and options, `Use`, `SetRouter`, `Handler`, and the start/run/shutdown state flag.
- **Text** and **Wrappers** (`text.dfy`, `wrappers.dfy`). Stand-ins for the parts of Go's `strings`, `strconv` and `sort` packages that the core uses, and the `Option`/`Result`/`Outcome` types.

Two behaviours follow the code rather than the repository's tests or documentation:

- `Resources` (router.go:155-175) registers its eight routes without names. The lookup `URL("users_show", …)` that router_test.go:176-191 expects to succeed therefore fails in the model (`Router.ResourcesPreserve`).
- The field-spec parser splits the type from the options at the first comma (utils.go). `price:decimal(10,2)` therefore gives the type text `decimal(10`, which maps to plain `DECIMAL` with precision and scale 0. The leftover `2)` is read as an unknown option and ignored (`Fields.ScaleAlwaysZero`, `Fields.PriceSpec`). The repository's own test accepts this outcome, so it is described here rather than listed as a defect.

## Model

| member | source | states |
|---|---|---|
| Router.NormalizePath | internal/router/router.go:263-272 | "/" stays "/", one trailing '/' is removed, and an empty result becomes "/"; the result is never empty |
| Router.NormalizeTrailingSlash | internal/router/router.go:263-272 | a path and the same path with a trailing '/' normalise alike |
| Router.SplitPathSpec | internal/router/router.go:224-231 | the split is empty exactly when the pattern is only slashes; no part holds '/'; the parts joined by '/' give the trimmed pattern, and its first and last parts are non-empty |
| Router.SplitEnds | internal/router/router.go:224-231 | splitting a string that neither starts nor ends with the separator gives non-empty first and last parts |
| Router.SplitLastNonEmpty | internal/router/router.go:224-231 | splitting a string that does not end with the separator gives a non-empty last part |
| Router.BindStep | internal/router/router.go:291-314 | one more position of the segment loop adds the parameter's binding, or nothing for a literal |
| Router.MatchSegments | internal/router/router.go:291-314 | the segment loop succeeds exactly when every segment accepts its part, and then returns the left-to-right bindings |
| Router.MatchRoute | internal/router/router.go:276-315 | matchRoute succeeds exactly when the reference Match does, with the same parameters (root, trim, part count, segment loop) |
| Router.MatchShape | internal/router/router.go:282-313 | a match of a non-root pattern means as many parts as segments, "" accepting only "", parameters named, literals equal |
| Router.BareColonNeverMatches | internal/router/router.go:301-306 | a pattern with a bare ":" segment matches no path |
| Router.BindKeys | internal/router/router.go:301-308 | the captured keys are exactly the names of the parameter segments |
| Router.BindValue | internal/router/router.go:307 | a parameter that no later segment repeats captures the part in its position (a later repeat overwrites) |
| Router.FirstServing | internal/router/router.go:185-204 | the index found is in range and its route serves the verb and path |
| Router.FirstRoute | internal/router/router.go:185-204 | the index found is in range and satisfies the scanned predicate |
| Router.FirstServingSpec | internal/router/router.go:185-204 | the winner is the lowest serving index, and there is none exactly when no route serves the request |
| Router.FirstRouteSpec | internal/router/router.go:185-204 | the first-match scan returns the lowest satisfying index, and none exactly when no route satisfies it |
| Router.FirstServingAt | internal/router/router.go:185-204 | a serving route with no serving route before it is the winner |
| Router.FirstServingPrefix | internal/router/router.go:185-204 | routes registered later never displace an earlier winner |
| Router.AnyShapeMatchesSpec | internal/router/router.go:186-192 | the method-mismatch flag is set exactly when some route's shape matches the path |
| Router.AnyRouteSpec | internal/router/router.go:186-192 | the backward scan holds exactly when some route satisfies the predicate |
| Router.ScanStep | internal/router/router.go:185-193 | one loop iteration extends both the winner and the mismatch flag by one route |
| Router.ScanHit | internal/router/router.go:185-203 | the first serving route is dispatched with its captured parameters and its middleware around its handler |
| Router.DispatchAt | internal/router/router.go:185-203 | the winning route is dispatched with its parameters and its middleware chain |
| Router.ScanMiss | internal/router/router.go:206-219 | with no serving route, a matching shape gives 405 (the custom handler if set) and otherwise 404 |
| Router.DispatchCases | internal/router/router.go:181-220 | a route runs exactly when one serves the request, 405 exactly when none serves but a shape matches, 404 exactly when no shape matches |
| Router.DispatchWinner | internal/router/router.go:185-203 | the dispatched route has the request's verb, binds the returned parameters, no earlier route serves, and the first-registered middleware runs outermost |
| Router.DispatchTrailingSlash | internal/router/router.go:182 | "/users/" dispatches exactly like "/users" |
| Router.NewRouteWellFormed | internal/router/router.go:93-94 | a compiled route has an upper-case verb and the split of its '/'-prefixed pattern |
| Router.RegisterPreserves | internal/router/router.go:89-106 | registration succeeds exactly when the pattern starts with '/', keeps the table well formed and appends one unnamed route with the upper-cased verb |
| Router.RegisterNamedPreserves | internal/router/router.go:109-143 | an empty name fails first, then a duplicate name, then a pattern without '/'; success appends the named route and keeps names unique |
| Router.AppendNamed | internal/router/router.go:114-124 | appending a well-formed route with an unused name keeps the table well formed |
| Router.ResourcesPreserve | internal/router/router.go:155-175 | Resources keeps the table well formed and registers no names, so a named lookup finds what it found before |
| Router.ResourceRoutesWellFormed | internal/router/router.go:161-172 | all eight resource routes are well formed and unnamed |
| Router.CollectionRowsWellFormed | internal/router/router.go:161-164 | the index, new and create routes are well formed and unnamed |
| Router.MemberRowsWellFormed | internal/router/router.go:166-172 | the show, edit, update and destroy routes are well formed and unnamed |
| Router.AppendUnnamed | internal/router/router.go:161-172 | appending well-formed unnamed routes keeps the table well formed |
| Router.FindNamedAppend | internal/router/router.go:237-238 | routes without the name appended after the table do not change the named lookup |
| Router.CleanPathSplits | internal/router/router.go:224-231 | a path built from clean parts splits back into exactly those parts |
| Router.MatchCleanPath | internal/router/router.go:276-315 | a path of clean parts matches exactly when the counts agree and every segment accepts its part, capturing the bindings |
| Router.NormalizeCleanPath | internal/router/router.go:263-272 | a path of clean parts is already normal |
| Router.CollectionPattern | internal/router/router.go:162 | "/base" compiles to the one segment base |
| Router.TwoSegmentPattern | internal/router/router.go:162-166 | a pattern of the base, a '/' and one more clean segment, as "/base/new" and "/base/:id" are, compiles to exactly those two segments |
| Router.IndexRoute | internal/router/router.go:162 | the first resource route is GET on the collection |
| Router.NewFormRoute | internal/router/router.go:163 | the second resource route is GET on "/base/new" running New without middleware |
| Router.CreateRoute | internal/router/router.go:164 | the third resource route is POST on the collection |
| Router.ShowRoute | internal/router/router.go:168 | the fourth resource route is GET on "/base/:id" running Show without middleware |
| Router.ResourcesNewBeforeShow | internal/router/router.go:161-169 | GET "/base/new" runs New, not Show, because New is registered first |
| Router.NewFormPath | internal/router/router.go:161-169 | "/base/new" is normal, misses the collection pattern and matches the new-form pattern |
| Router.NewFormDispatch | internal/router/router.go:185-203 | with the collection route missing and the new-form route matching, GET dispatches route 1 with no parameters |
| Router.NewFormMatches | internal/router/router.go:276-315 | "/base/new" misses the one-segment pattern and matches base, "new" capturing nothing |
| Router.ResourcesShowBindsId | internal/router/router.go:166-168 | GET "/base/<id>" runs Show with "id" bound to the part, for any clean id other than "new" |
| Router.MemberPath | internal/router/router.go:166-168 | "/base/<id>" is normal, misses the collection and new-form patterns, and binds "id" on the member pattern |
| Router.ShowDispatch | internal/router/router.go:185-203 | when routes 0 to 2 miss and the member route matches, GET dispatches route 3 with "id" bound |
| Router.ShowMatches | internal/router/router.go:276-315 | "/base/<id>" misses base and base, "new", and binds id on base, ":id" |
| Router.FindNamed | internal/router/router.go:237-238 | the index found carries the name, no earlier route does, and there is none exactly when the name is unused |
| Router.FindNamedAt | internal/router/router.go:237-238 | the first route carrying the name is the one the lookup reports |
| Router.FillPattern | internal/router/router.go:239-255 | the segment loop of URL returns the reference URL of the route's segments |
| Router.SubstituteSpec | internal/router/router.go:242-255 | substitution succeeds exactly when every parameter key is supplied, keeping literals and escaping each value in place; otherwise it names the first missing key |
| Router.SubstitutePrefixFailure | internal/router/router.go:246-249 | a missing key stops the loop: the failure of a prefix is the failure of the whole pattern |
| Router.UrlMatchesItsRoute | internal/router/router.go:236-259 | a URL built for a route matches that route again and captures each supplied (escaped) value |
| Router.BindRecovers | internal/router/router.go:301-308 | matching the filled parts captures every parameter's escaped value |
| Router.LastWithName | internal/router/router.go:307 | the last segment carrying a parameter name is found at or after the given one |
| Router.ParamsFromContext | internal/router/router.go:29-37 | a non-empty result comes only from a parameter map stored on the context; otherwise the empty map |
| Router.Param | internal/router/router.go:41-43 | the value stored for the name in the context's parameters, and "" when the name is absent from them (a present empty binding also reads "") |
| Router.DispatchParam | internal/router/router.go:181-197 | for any table and request, once a route is dispatched, Param of one of its parameter names on the context ServeHTTP builds is the request path's part in that segment's position; for a repeated name, the last segment carrying it |
| Router.DispatchParamAbsent | internal/router/router.go:181-197 | for any table and request, Param of a name that no segment of the dispatched route declares is "" |
| Router.Router.constructor | internal/router/router.go:82-84 | a new router has no routes and no custom 404 or 405 handlers |
| Router.Router.HandleWith | internal/router/router.go:99-106 | the table becomes the registration result, or is unchanged with the panic reported |
| Router.Router.Handle | internal/router/router.go:89-96 | as HandleWith without middleware |
| Router.Router.HandleNamedWith | internal/router/router.go:128-143 | the duplicate-name loop and checks give the named registration result, or leave the table unchanged |
| Router.Router.HandleNamed | internal/router/router.go:109-125 | as HandleNamedWith without middleware |
| Router.Router.Get | internal/router/router.go:146 | registers a GET route |
| Router.Router.Post | internal/router/router.go:147 | registers a POST route |
| Router.Router.Put | internal/router/router.go:148 | registers a PUT route |
| Router.Router.Patch | internal/router/router.go:149 | registers a PATCH route |
| Router.Router.Delete | internal/router/router.go:150 | registers a DELETE route |
| Router.Router.Resources | internal/router/router.go:155-175 | an empty base fails with the table unchanged; otherwise the eight resource routes of the trimmed base are appended in order |
| Router.Router.CollectionRoutes | internal/router/router.go:161-164 | appends the index, new and create routes |
| Router.Router.MemberRoutes | internal/router/router.go:166-172 | appends the show, edit, update (PUT and PATCH) and destroy routes |
| Router.Router.MemberReadRoutes | internal/router/router.go:167-169 | appends the show and edit routes |
| Router.Router.MemberWriteRoutes | internal/router/router.go:170-172 | appends the PUT, PATCH and DELETE routes |
| Router.Router.ServeHTTP | internal/router/router.go:181-220 | the loop's decision is the reference dispatch of the request |
| Router.Router.URL | internal/router/router.go:236-259 | the result is the reference URL: unknown name, missing parameter, "/" for the root pattern, or the filled path |
| Router.ParamRoute | internal/router/router_test.go:41-59 | with only GET "/base/:id" registered, GET "/base/<id>" runs that route and Param reads <id> for "id" |
| Router.ParamRouteMatches | internal/router/router.go:93-94 | the compiled GET "/base/:id" route has verb GET and segments base, ":id", and binds the id of "/base/<id>" |
| Chain.Entries | pkg/flow/app.go:36-38 | one "enter" step per middleware, in registration order |
| Chain.Compose | pkg/flow/app.go:273-280 | the reverse loop wrapping the handler builds the nesting with the first registered middleware outermost |
| Chain.NestTrace | pkg/flow/app.go:256-258 | a request enters every middleware in registration order and reaches the terminal handler last |
| Chain.NestEmpty | internal/router/router.go:198-201 | with no middleware the composed handler is the terminal handler itself |
| FlowApp.ConfigureSplit | pkg/flow/app.go:249-251 | applying options a then b is applying a + b, in the order given |
| FlowApp.AddrLastWins | pkg/flow/app.go:123-126 | the listen address is that of the last WithAddr option, or ":3000" from New when there is none |
| FlowApp.TimeoutsKept | pkg/flow/app.go:231-254 | options never change the name, router or read, write and idle timeouts; without WithShutdownTimeout the shutdown timeout stays |
| FlowApp.DefaultMiddlewareOrder | pkg/flow/app.go:218-228 | WithDefaultMiddleware appends Recovery, RequestID with the default header, Logging and Metrics, in that order |
| FlowApp.DefaultStackTrace | pkg/flow/app.go:216-228 | with the default stack a request passes Recovery, RequestID, Logging and Metrics before the router |
| FlowApp.UseIsInnermost | pkg/flow/app.go:256-261 | middleware registered with Use runs after every earlier one and right before the router |
| FlowApp.StepValid | pkg/flow/app.go:79-81 | every lifecycle step keeps "no server exactly while idle" |
| FlowApp.StoppedIsFinal | pkg/flow/app.go:284-309 | once stopped an App stays stopped and every Start returns ErrAppAlreadyRunning |
| FlowApp.NoStartAfterIdle | pkg/flow/app.go:285-287 | a started App never becomes idle again, so no later Start succeeds |
| FlowApp.StartsAtMostOnce | pkg/flow/app.go:282-287 | over any sequence of events, Start succeeds at most once |
| FlowApp.ShutdownTwice | pkg/flow/app.go:342-354 | a second Shutdown returns nil and changes nothing |
| FlowApp.EffectiveShutdownTimeout | pkg/flow/app.go:332-335 | the graceful-shutdown budget is the configured timeout when positive, else ten seconds |
| FlowApp.App.constructor | pkg/flow/app.go:231-254 | a new App holds the defaults of New with the options applied in order, is idle and has no server |
| FlowApp.App.Use | pkg/flow/app.go:259-261 | appends the middleware and changes nothing else |
| FlowApp.App.ApplyOption | pkg/flow/app.go:113-228 | each library option changes its field (or the view manager, or appends its middleware) and nothing else |
| FlowApp.App.UseDefaults | pkg/flow/app.go:218-228 | four calls of Use append the default stack |
| FlowApp.App.SetRouter | pkg/flow/app.go:265-270 | the router becomes the given handler, or a fresh ServeMux for nil |
| FlowApp.App.Handler | pkg/flow/app.go:273-280 | the handler is the router nested in the middleware, the first registered outermost |
| FlowApp.App.Start | pkg/flow/app.go:284-309 | from idle: running, with a server carrying the address, the handler and the three timeouts; otherwise ErrAppAlreadyRunning and nothing changes |
| FlowApp.App.ServerExited | pkg/flow/app.go:304-305 | the serving goroutine's return sets the state to stopped |
| FlowApp.App.Shutdown | pkg/flow/app.go:343-368 | nil without a server or when already stopped; otherwise running becomes stopped and a server error is wrapped |
| FlowApp.App.Run | pkg/flow/app.go:314-340 | a failed Start is returned unchanged; otherwise Shutdown's result with the effective timeout |
| Migrations.MatchingMembers | internal/migrations/migrations.go:95-103 | collect keeps a name exactly when it is a non-directory entry whose name ends with the suffix |
| Migrations.Bases | internal/migrations/migrations.go:35 | the base names of a list of up files, one per file |
| Migrations.Remove | internal/migrations/migrations.go:201-204 | DELETE ... WHERE name = base leaves no row with that name |
| Migrations.ApplyFromGrows | internal/migrations/migrations.go:34-51 | the ApplyAll loop only appends, to the ledger and to the committed files |
| Migrations.ApplyFromAccounts | internal/migrations/migrations.go:34-51 | every committed up file is recorded under its base name, in order, except a last one whose ledger insert failed |
| Migrations.StepAccounts | internal/migrations/migrations.go:44-49 | one run-and-record step in front of an accounted remainder keeps the account |
| Migrations.ApplyFromCovers | internal/migrations/migrations.go:34-51 | after a successful run every up file's base name is in the ledger |
| Migrations.ApplyFromNothingPending | internal/migrations/migrations.go:40-43 | with every base name already recorded the loop runs nothing and changes nothing |
| Migrations.ApplyAllIdempotent | internal/migrations/migrations_test.go:62-71 | a second ApplyAll after a successful one succeeds, runs nothing and records nothing |
| Migrations.ApplyFromFailureNotRecorded | internal/migrations/migrations.go:44-49 | the migration whose SQL or ledger insert failed is not in the ledger afterwards |
| Migrations.PendingMembers | internal/migrations/migrations.go:238-247 | a name is pending exactly when some up file has it and the ledger does not |
| Migrations.PendingEmptyAfterApplyAll | internal/migrations/migrations.go:228-249 | right after a successful ApplyAll PendingMigrations returns the empty list |
| Migrations.PendingIgnores | internal/migrations/migrations.go:238-247 | recording a name no up file has leaves the pending list unchanged |
| Migrations.ApplyFromRecordsPending | internal/migrations/migrations.go:34-51 | with distinct base names a successful ApplyAll appends exactly the pending list, in the same order |
| Migrations.RollbackEmptyLedger | internal/migrations/migrations.go:61-69 | with no applied migration RollbackLast changes nothing and, once the table exists, fails naming the directory |
| Migrations.RemoveLast | internal/migrations/migrations.go:201-204 | deleting the newest name of a ledger without repeats leaves the older names |
| Migrations.RollbackRemovesLast | internal/migrations/migrations.go:55-83 | a successful rollback runs the newest entry's down file and removes exactly that entry |
| Migrations.ApplySingleTwice | internal/migrations/migrations.go:129-151 | applying one up file twice runs its SQL twice and the second run fails on the ledger's primary key |
| Migrations.ApplySingleThenRollback | internal/migrations/migrations.go:55-83 | an up file applied with ApplySingle and then rolled back leaves the ledger as it was |
| Migrations.SingleKeyBelowDir | internal/migrations/migrations.go:145 | ApplySingle on dir/<b>.up.sql records b, whatever the directory. That is the key ApplyAll gives the directory entry <b>.up.sql |
| Migrations.ApplyFromNoDup | internal/migrations/migrations.go:34-51 | the ApplyAll loop never records a name twice |
| Migrations.ApplyAllKeepsNoDup | internal/migrations/migrations.go:23-52 | ApplyAll keeps the ledger's names distinct, as the primary key on name does |
| Migrations.ApplySingleKeepsNoDup | internal/migrations/migrations.go:129-151 | ApplySingle keeps the ledger's names distinct |
| Migrations.RollbackKeepsNoDup | internal/migrations/migrations.go:55-83 | RollbackLast keeps the ledger's names distinct. With the two lemmas above, every reachable ledger meets the requires of RollbackRemovesLast |
| Migrations.MigrationPair | internal/migrations/migrations.go:35 | an up file's key is its base; the down file of the same base is not an up file |
| Migrations.PairDirFiles | internal/migrations/migrations_test.go:21-28 | the test directory holds one up file for collect and both files for os.Stat |
| Migrations.ApplyTwiceThenRollback | internal/migrations/migrations_test.go:39-90 | apply records one name, a second apply changes nothing, rollback runs the down file and empties the ledger |
| Migrations.MigrationPathsMembers | internal/migrations/migrations.go:156-167 | the walk keeps a path exactly when it is a file named *.up.sql or *.down.sql |
| Migrations.ListMembers | internal/migrations/migrations.go:154-173 | ListMigrations returns, sorted, exactly the paths of the up and down files found by the walk |
| Migrations.EnsureTable | internal/migrations/migrations.go:176-182 | succeeds exactly when the database accepts CREATE TABLE, and then changes nothing visible |
| Migrations.IsApplied | internal/migrations/migrations.go:185-192 | true exactly when the name is in the ledger |
| Migrations.MarkApplied | internal/migrations/migrations.go:195-198 | appends the name unless it is already there (primary key) or the insert fails |
| Migrations.UnmarkApplied | internal/migrations/migrations.go:201-204 | removes every row of that name when the delete succeeds, else nothing |
| Migrations.ExecFile | internal/migrations/migrations.go:107-126 | commits the file when it exists, is not a directory and its SQL succeeds; a failed transaction leaves nothing |
| Migrations.CollectFiles | internal/migrations/migrations.go:86-105 | the loop over the entries equals Collect: an error for a missing or unreadable directory, else the matching paths in listing order |
| Migrations.ApplyAll | internal/migrations/migrations.go:23-52 | the new ledger, committed files and error equal ApplyAllSpec of the old state |
| Migrations.RollbackLast | internal/migrations/migrations.go:55-83 | the new state and error equal RollbackSpec of the old state |
| Migrations.ApplySingle | internal/migrations/migrations.go:129-151 | the Stat error, the directory error or the exec error in that order. For an up file, ensureTable runs and then the ledger records the base name of the path without ".up.sql". The new state and error are those of ApplySingleSpec |
| Migrations.ListMigrations | internal/migrations/migrations.go:154-173 | returns the walk's error, or ListSpec: the migration paths sorted |
| Migrations.AppliedMigrations | internal/migrations/migrations.go:207-225 | the ledger oldest first, or the table error |
| Migrations.PendingMigrations | internal/migrations/migrations.go:228-249 | equals PendingSpec: the base names of the sorted up files that are not in the ledger |
| Migrations.Database.constructor | internal/migrations/migrations.go:176-182 | a fresh database has an empty ledger and nothing committed, and accepts what it is given |
| Fields.TableName | internal/generator/utils.go:21-27 | the table name ends in "s" and is either the lower-cased name itself, exactly when that already ends in "s", or the lower-cased name with one "s" appended |
| Fields.TableNameIdempotent | internal/generator/utils.go:21-27 | a table name is its own table name |
| Fields.ParseOptions | internal/generator/utils.go:171-172 | one option reading per comma-separated token |
| Fields.ParseFieldSpec | internal/generator/utils.go:65-209 | the option-token loop yields the reference parse of the spec |
| Fields.ParseFields | internal/generator/utils.go:52-62 | the loop returns one parsed field per input, in input order |
| Fields.ParseAllPointwise | internal/generator/utils.go:52-62 | ParseFields keeps the length of its input and parses position i from input i |
| Fields.BlankIsZero | internal/generator/utils.go:67-70 | an empty or white-space-only spec gives the zero FieldSpec |
| Fields.NameBeforeColon | internal/generator/utils.go:72-75 | the name is the trimmed text before the first colon, GoName is its title form, and the name holds no colon |
| Fields.MissingTypeDefaults | internal/generator/utils.go:76-98 | without a type after the colon the field is a non-null string column of SQL type TEXT with no options |
| Fields.OptionsKeepTyping | internal/generator/utils.go:170-188 | the options never change the name, GoName, type token, Go type, SQL type, size, precision or scale |
| Fields.OptionFlags | internal/generator/utils.go:174-179 | nullable, unique and index are set exactly when some token says so |
| Fields.DefaultIsLast | internal/generator/utils.go:180-182 | Default is the value of the last default= token, and unchanged without one |
| Fields.ReferencesIsLast | internal/generator/utils.go:183-186 | References is the value of the last ref= or references= token, and unchanged without one |
| Fields.IgnoredOptions | internal/generator/utils.go:172-187 | tokens the loop does not recognise change nothing |
| Fields.DefaultValue | internal/generator/utils.go:180-182 | a default= token's value is the text after "default=" |
| Fields.RefValue | internal/generator/utils.go:183-185 | a ref= or references= token's value is the text after its first "=" |
| Fields.TypeTokenHasNoComma | internal/generator/utils.go:85-87 | the type token is cut at the first comma, so it never holds one |
| Fields.ResolveWithoutComma | internal/generator/utils.go:94-167 | a type token without a comma resolves to scale 0 and an SQL type without a comma |
| Fields.ScaleAlwaysZero | internal/generator/utils.go:85-87 | every parsed field has scale 0 and a comma-free SQL type, whatever the input |
| Fields.InitialWithoutComma | internal/generator/utils.go:85-167 | the field before its options has scale 0 and a comma-free SQL type |
| Fields.AppliedKeepsTyping | internal/generator/utils.go:169-188 | reading the options keeps the name and typing of the field |
| Fields.TypeForScalar | internal/generator/utils.go:94-167 | every branch of the type switch picks one of the six scalar Go types |
| Fields.FinishPointer | internal/generator/utils.go:190-206 | a nullable field's scalar Go type gets its pointer form; a non-null field keeps its type |
| Fields.NullableMeansPointer | internal/generator/utils.go:190-206 | a parsed field's Go type is a pointer exactly when the field is nullable, and a scalar once the '*' is removed |
| Fields.KeywordTypes | internal/generator/utils.go:95-113 | INTEGER, BOOLEAN, REAL and DATETIME come exactly from their listed keywords |
| Fields.TableTypes | internal/generator/utils.go:96-113 | within the keyword cases, each SQL type comes exactly from its keywords |
| Fields.TypeForOther | internal/generator/utils.go:162-166 | a token that is no keyword and of neither family is a string of SQL type TEXT |
| Fields.TypeForDecimal | internal/generator/utils.go:117 | decimal and numeric tokens go to the decimal parser |
| Fields.TypeForVarchar | internal/generator/utils.go:147 | varchar and char tokens go to the varchar parser |
| Fields.DecimalSqlType | internal/generator/utils.go:117-146 | every decimal or numeric SQL type starts with DECIMAL |
| Fields.VarcharSqlType | internal/generator/utils.go:147-161 | a varchar or char SQL type starts with 'V' or 'C' |
| Fields.ResolvesToFamily | internal/generator/utils.go:114-161 | keyword(inner) tokens of the decimal or varchar family reach that family's parser |
| Fields.SizedVarcharOf | internal/generator/utils.go:149-155 | kw(n) with an integer n gives VARCHAR(n) and size n |
| Fields.DecimalOf | internal/generator/utils.go:120-143 | kw(p) with an integer p gives precision p and scale 0 |
| Fields.VarcharSize | internal/generator/utils.go:147-156 | varchar(n) and char(n) resolve to string, VARCHAR(n), size n |
| Fields.DecimalPrecision | internal/generator/utils.go:117-143 | decimal(p) and numeric(p) resolve to float64 with precision p, and DECIMAL(p) when p is positive |
| Fields.UnclosedDecimal | internal/generator/utils.go:120-146 | a decimal or numeric token without ")" is plain DECIMAL with no precision |
| Fields.TypedSpec | internal/generator/utils.go:65-92 | name:type is read as the name and the type token, with no options |
| Fields.TypedSpecWithOptions | internal/generator/utils.go:65-209 | name:type,options is read as the name, the type token and the comma-separated option tokens, then finished |
| Fields.TitleSpec | internal/generator/fieldspec_test.go:9-26 | "title:string" is the non-null string column title, of SQL type TEXT |
| Fields.PriceSpec | internal/generator/fieldspec_test.go:28-42 | "price:decimal(10,2),default=0,nullable" is nullable with default "0", and of plain DECIMAL with no precision or scale |
| Generator.NoOverwrite | internal/generator/generator.go:16-21 | without overwrite an existing destination fails with "file exists" and no file changes |
| Generator.GeneratedWrites | internal/generator/generator.go:16-37 | a write succeeds exactly when overwrite is set or the file is absent and the template renders; success stores the rendered text, failure changes nothing, no other path is touched, and without overwrite every existing file is kept |
| Generator.KeepsTrans | internal/generator/generator.go:140-246 | keeping every existing file composes across consecutive writes |
| Generator.BuildColumnLine | internal/generator/generator.go:95-105 | the column line built step by step is the reference column line |
| Generator.ModelParts | internal/generator/generator.go:75-121 | the field loop yields the struct code, the columns block and the "time" import of the reference definitions |
| Generator.LinesPerField | internal/generator/generator.go:82-107 | one struct line and one column line per field, in field order |
| Generator.LinePerField | internal/generator/generator.go:82-107 | a per-field line list has one line per field, built from that field |
| Generator.AnyTimeExactly | internal/generator/generator.go:83-85 | the "time" import is needed exactly when some field's Go type mentions time.Time |
| Generator.UsesTimeExactly | internal/generator/generator.go:83 | the two-part time test reduces to mentioning time.Time |
| Generator.ColumnNotNull | internal/generator/generator.go:95-99 | a column line starts with the name and SQL type, and NOT NULL follows exactly when the field is not nullable |
| Generator.ColumnDefault | internal/generator/generator.go:100-102 | DEFAULT and its value follow exactly when the field has a default; otherwise only UNIQUE can follow |
| Generator.ColumnUnique | internal/generator/generator.go:103-105 | a unique column's line ends in UNIQUE |
| Generator.ColumnsBlockShape | internal/generator/generator.go:109-116 | the struct code and the columns block are empty exactly when there are no fields; a non-empty block starts with ",\n" and the first column line |
| Generator.MigrationColumns | internal/generator/generator.go:188-210 | the migration's column loop yields the same columns block as the model's |
| Generator.IndexExtras | internal/generator/generator.go:213-229 | the index loop yields the CREATE INDEX and DROP INDEX extras of the indexed fields |
| Generator.IndexedExactly | internal/generator/generator.go:215-216 | a name is indexed exactly when some field with that name carries the index option |
| Generator.IndexedAppend | internal/generator/generator.go:215-221 | the indexed names of two field lists are those of each, in order |
| Generator.IndexPairs | internal/generator/generator.go:216-219 | position k of the up extras creates, and position k of the down extras drops, the same index |
| Generator.DropIndexNames | internal/generator/generator.go:217-219 | different fields give different DROP INDEX lines |
| Generator.MigrationNamesPair | internal/generator/generator.go:182-183 | the up file ends in ".up.sql", the down file does not, and the runner pairs them by the same base |
| Generator.MigrationPaths | internal/generator/generator.go:176-185 | the up and down paths are the file names under root/db/migrate |
| Generator.MigrationPathsApart | internal/generator/generator.go:176-185 | the up and down paths differ and both lie under root/db |
| Generator.AppPaths | internal/generator/generator.go:55-72 | the controller, model and view paths lie under root/app, in distinct sub-directories |
| Generator.PathsSeparate | internal/generator/generator.go:55-185 | the controller, model, view and migration paths of one scaffold are pairwise distinct |
| Generator.ScaffoldTargetsSeparate | internal/generator/generator.go:140-246 | a scaffold's targets are pairwise distinct |
| Generator.ScaffoldOrder | internal/generator/generator.go:140-246 | the created list is a prefix of controller, model, views unless NoViews, and migrations unless SkipMigrations; the scaffold succeeds exactly when the list is complete |
| Generator.ViewsKeep | internal/generator/generator.go:166-170 | writing the views without --force keeps every existing file |
| Generator.ViewsOnlyWithin | internal/generator/generator.go:162-170 | writing the views touches no path but the view paths |
| Generator.ViewsPresent | internal/generator/generator.go:162-171 | with templates that render, every view path exists afterwards and no file disappears |
| Generator.ViewsStage | internal/generator/generator.go:156-172 | the views stage adds every view path unless NoViews and touches nothing else |
| Generator.OnlyWithinStep | internal/generator/generator.go:140-246 | touching only planned paths composes with one more write of a planned path |
| Generator.ScaffoldTouchesOnlyPlan | internal/generator/generator.go:140-246 | a scaffold, successful or not, changes no file outside its plan |
| Generator.AfterModelOnlyPlan | internal/generator/generator.go:156-241 | the views and migrations stages change no file outside the plan |
| Generator.AfterModelFresh | internal/generator/generator.go:156-245 | once the controller and model exist, views and fresh migrations complete the plan |
| Generator.ScaffoldFresh | internal/generator/generator_test.go:10-45 | on a tree without the planned files and with templates that render, the scaffold succeeds, lists the whole plan and every planned file exists |
| Generator.ScaffoldKeepsFiles | internal/generator/cli_flags_test.go:71-100 | without --force a scaffold never changes an existing file |
| Generator.FileSystem.constructor | internal/generator/generator.go:16-37 | the file tree starts as given |
| Generator.FileSystem.GenerateFile | internal/generator/generator.go:16-37 | the outcome and the new files are those of the reference write |
| Generator.FileSystem.GenerateController | internal/generator/generator.go:53-62 | writes the controller template to root/app/controllers/name_controller.go, honouring --force |
| Generator.FileSystem.GenerateModel | internal/generator/generator.go:70-132 | writes the model template with the parsed fields' data to root/app/models/lower(name).go, honouring --force |
| Generator.FileSystem.GenerateMigrations | internal/generator/generator.go:175-240 | writes the up file and, if that succeeded, the down file, with the columns and index extras |
| Generator.FileSystem.GenerateViews | internal/generator/generator.go:156-172 | writes the four view files in order, ignoring their errors, and lists their paths |
| Generator.FileSystem.GenerateScaffold | internal/generator/generator.go:140-246 | the created list, outcome and files are those of the reference scaffold |
| Generator.FileSystem.FinishScaffold | internal/generator/generator.go:156-245 | after the controller and model, the views and migrations stages give the reference result |
| Text.TrimTrailingSlashes | pkg/flow/view.go:57 | the trailing slashes filepath.Base drops: a prefix of the path that no longer ends in '/', the whole path when it has none |
| Text.Base | pkg/flow/view.go:57 | the base name of a path is never empty |
| Text.LastIndexOfAppend | pkg/flow/view.go:57 | the last '/' of a concatenation lies in the second part if it holds one, otherwise in the first |
| Text.BaseTail | pkg/flow/view.go:57 | the base of a path not ending in '/' is what follows its last '/' |
| Text.BaseBelow | pkg/flow/view.go:103-110 | the base of dir/x is the base of x, so the set is named after the view file |
| Text.BaseBelowDeep | pkg/flow/view.go:103-110 | the base of dir/x is the base of x when x holds a '/' |
| Text.BaseBelowFlat | pkg/flow/view.go:103-110 | the base of dir/x is x when x holds no '/' |
| Text.BaseOfAppend | pkg/flow/view.go:103-110 | a prefix before a path that already holds a '/' does not change its base |
| Text.BaseAppend | pkg/flow/view.go:57 | appending a slash-free suffix such as ".html" appends it to the base |
| FlowView.CachedIgnoresDisk | pkg/flow/view.go:64-71 | outside development mode a cached name is served from the cache, whatever the disk or parser, and the cache stays |
| FlowView.LoadCache | pkg/flow/view.go:62-125 | a failure leaves the cache alone; development mode always parses and never stores; a miss parses afresh; the cache changes only by storing a successful parse under the name |
| FlowView.LoadTwice | pkg/flow/view.go:62-125 | after one successful load outside development mode, the next load of the name returns the same template from the cache |
| FlowView.DevModeReparses | pkg/flow/view.go:153-164 | turning development mode on empties the cache and the next load parses the files again |
| FlowView.DevModeOffKeeps | pkg/flow/view.go:153-164 | turning development mode off keeps the cache, so cached templates stay in service |
| FlowView.SettersTakeEffect | pkg/flow/view.go:128-149 | after SetFuncMap or SetDefaultLayout the next load parses afresh with the new setting |
| FlowView.FreshOnSettings | pkg/flow/view.go:73-117 | a fresh load depends only on the template directory, the default layout and the function map |
| FlowView.MissingView | pkg/flow/view.go:103-106 | a missing view file is an error naming its path, and the cache does not change |
| FlowView.CandidatesOrder | pkg/flow/view.go:73-107 | the files are the default layout if present (else the layouts glob), then partials, then shared, then the view last; they exist exactly when the view file does |
| FlowView.LayoutOverridesGlob | pkg/flow/view.go:76-88 | with a default layout set, the contents of the layouts directory do not matter |
| FlowView.ExecNameFallback | pkg/flow/view.go:55-58 | without a "content" template Render executes the view file's base name, the name the set was created under |
| FlowView.ViewManager.constructor | pkg/flow/view.go:36-38 | no layout, an empty function map, caching on and an empty cache |
| FlowView.ViewManager.CandidateFiles | pkg/flow/view.go:73-107 | the candidate loop collects the reference candidate list or the missing-view error |
| FlowView.ViewManager.LoadTemplate | pkg/flow/view.go:62-125 | the result and the new cache are those of the reference load; no setting changes |
| FlowView.ViewManager.Render | pkg/flow/view.go:43-58 | a load failure is returned; otherwise the template and the name executed ("content" or the base name), with the cache updated as the load does |
| FlowView.ViewManager.SetDefaultLayout | pkg/flow/view.go:128-137 | sets the layout and empties the cache |
| FlowView.ViewManager.SetFuncMap | pkg/flow/view.go:141-149 | sets the function map and empties the cache |
| FlowView.ViewManager.SetDevMode | pkg/flow/view.go:153-164 | sets development mode, emptying the cache only when turning it on |
| Text.Trim | internal/router/router.go:225 | strings.Trim leaves neither end on the cut character |
| Text.TrimEmpty | internal/router/router.go:225-228 | trimming gives "" exactly when every character is the cut character |
| Text.Split | internal/router/router.go:229 | strings.Split always returns at least one part |
| Text.SplitNoSep | internal/router/router.go:229 | no part of a split holds the separator |
| Text.JoinSplit | internal/router/router.go:229 | joining the parts of a split with the separator gives the string back |
| Text.SplitJoin | internal/router/router.go:255 | splitting parts joined by a separator they do not hold gives the parts back |
| Text.SplitFirst | internal/generator/utils.go:72 | strings.SplitN with n = 2: the text before the first separator and, if there is one, the rest |
| Text.Atoi | internal/generator/utils.go:126 | a successful strconv.Atoi is in the 64-bit range and starts with a digit or a sign |
| Text.AtoiItoa | internal/generator/utils.go:126 | Atoi reads back every 64-bit integer that %d prints |
| Text.SortStrings | internal/migrations/migrations.go:33 | sort.Strings returns a sorted permutation of its input |
| Text.SortedMembers | internal/migrations/migrations.go:33 | sorting keeps exactly the same members |

## Left out

- The HTTP server itself is not modelled: `ListenAndServe` in its goroutine, the signal context, and `http.Server.Shutdown`/`Close` (app.go:284-370). `FlowApp.App.Run` takes as a parameter whether the server reports an error when it stops. The model only tracks the state flag and the effective shutdown timeout.
- Concurrency is not modelled. This covers the atomic state flag of `App` and the mutex of `ViewManager`: each method is modelled as one atomic step.
- `App.ServeHTTP` (app.go:372-374) only calls `Handler()` and serves the request, so it is represented by `FlowApp.App.Handler`.
- `Recovery` (app.go:380-392) is left out: its body recovers from panics and writes a response. `Logging`, `RequestID`, `Timeout` and `Metrics` are left out for the same kind of reason. Middleware are opaque labels, and the model only tracks their order in the stack.
- `SetBun`, `Bun` and `WithBun` (app.go:84-121) are left out, and so are the sessions and database fields. They store and return pointers to external libraries, and no core property depends on them.
- User-defined `Option` functions are left out: `FlowApp.AppOption` enumerates the options the package defines. `WithLogger` only replaces the opaque logger label.
- Calls on nil `*App` and `*ViewManager` receivers are not modelled. The model's objects always exist.
- Template parsing (`template.ParseFiles` with `Funcs`) is a parameter of the view manager, and its error is passed in as a value.
- FlowView.ViewManager.Render: executing the template is left out. This covers `ctx.RenderTemplate` and the error it returns (view.go:59). `Render` stops at the template set and the name it would execute, so an execution failure is not modelled.
- `filepath.Glob` and `os.Stat` are left out as operations. The view manager receives the file system as a set of existing paths and a glob result.
- `url.PathEscape`, the field parser's title-casing and `strings.Title` are function parameters (`escape`, `title`, `titleCase`). Their Unicode behaviour is not modelled.
- `strings.ToLower` and `strings.ToUpper` are modelled on ASCII letters only. The SQL keywords and Go types the parser matches are all ASCII, but a non-ASCII letter that Go lowers to one of them resolves differently. For example, Go maps 'İ' (U+0130) to 'i', so the type "İnt" resolves to int64/INTEGER in Go and to string/TEXT in the model.
- `ParseFieldSpec` and `ParseFields` also return an error, which is always nil in the Go code. The model returns the parsed value alone.
- The migration timestamp is the parameter `ts`, because `time.Now` is a clock. The `time.Sleep` between migration files (generator.go:244) is left out: it only serves to make timestamps distinct.
- `filepath.Join` is `Text.Path`, used for both the generator's and the view manager's paths. It joins the elements with "/" and never cleans the result, so it differs from Go in several ways:
  - empty elements are kept: a root of "" gives "/app/controllers/x_controller.go" where Go gives "app/controllers/x_controller.go";
  - doubled and trailing separators are kept: a root of "/tmp/p/" gives "/tmp/p//app/..." where Go gives "/tmp/p/app/...";
  - `.` and `..` elements are not resolved.
- Directory creation (`os.MkdirAll`) always succeeds in the model. `os.WriteFile` failure is not modelled: a write replaces the file's contents.
- Migrations.ApplySingle: the file system is one directory listing, and the path is looked up there as written. Its ledger key is the path's base name, as in Go, but a path whose directory differs from the listing's is not resolved through a directory tree.
- Executing SQL is left out. Whether the database accepts a statement is the oracle `accepts`. Reads of the `flow_migrations` ledger always succeed, and the ledger order is the insertion order, so ties in `applied_at` are not modelled.
- The command-line front end (cmd/flow) and the file watcher are not part of this model. The same holds for pkg/flow/router.go, controller.go, context.go, session.go and the ORM adapters; they appear only as the labels and parameters described above.
