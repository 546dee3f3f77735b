# Host verification service: in-memory stores, host-status query and port setup

This project models four self-contained pieces of the host verification service (HVS) and its
authentication service, and proves what each of them promises.

- **The flavor-template table** (`MockFlavorTemplateStore`) stands in for the database store of
  flavor templates. It keeps a list of live templates and a list of deleted ones.
  - Create appends.
  - Delete moves a template to the deleted list and fills its slot with the last live template
    (swap-remove).
  - Search starts from every scanned template. Per scanned template it appends one copy for an id
    hit, one for a label hit, one per condition equal to the criterion, and one when the named flavor
    part is present.
  - The model is a class whose methods reassign its two sequence fields.
- **The flavor-group table** (`MockFlavorgroupStore`) is a slice of nil-able group pointers.
  - Create appends.
  - Delete writes nil into the group's slot.
  - Search applies one criterion chosen by precedence: nil criteria, then id, then exact name,
    then name substring.
  - The seeded table holds the two groups, and the match policies, that the trust-manager tests
    rely on.
- **The host-status store's search**. `buildHostStatusSearchQuery` builds the SQL text clause by
  clause. It is modelled as a method that is proved equal to a declarative description: the base
  clause, then ` AND clause` for each filter field that is set, in a fixed order.
  - `Search` chooses between the latest-status table and the audit log, then scans rows.
  - `Update` refuses a Nil id and demands exactly one affected row.
  - The database answers, the clock and the date and uuid text forms are parameters. The fixed SQL
    texts are a record (`SqlTexts`), so the properties hold for any such texts; the constant `Sql`
    holds the ones the store writes.
- **The auth service's `update-service-config` task**. `Run` writes the log, JWT, auth-defender,
  NATS and server sections of the configuration, which is a class updated in place. The server
  port falls back to the default when it is out of [1024, 65535]. The task itself is a value, as
  in the source, where `Run` has a value receiver: the port fallback is seen in the configuration
  and never in the task. `Validate` accepts exactly the ports in range.

Supporting modules:

- `Uuids` covers the 16-byte uuid, its canonical 36-character text form and parsing, and version-4
  generation from given random bytes.
- `Strings` covers ASCII case mapping and substring search.
- `Wrappers` holds `Option` and `Result`.

## Model

| member | source | states |
|---|---|---|
| FlavorTemplateStore.AssignId | pkg/hvs/domain/mocks/flavortemplate_store.go:78-80 | The id Create gives a template is never Nil. A template whose id is not Nil is kept exactly as given. Label, conditions and parts are never changed. |
| FlavorTemplateStore.MockFlavorTemplateStore.Create | pkg/hvs/domain/mocks/flavortemplate_store.go:76-85 | Appends exactly the template with its assigned id at the end of the live list. The deleted list is unchanged and no error is returned. |
| FlavorTemplateStore.FirstIndex | pkg/hvs/domain/mocks/flavortemplate_store.go:90-94 | Gives the position of a template with the id such that no earlier template has it, or none when no template has it. |
| FlavorTemplateStore.MockFlavorTemplateStore.Retrieve | pkg/hvs/domain/mocks/flavortemplate_store.go:88-96 | Returns the first live template with the id, else a not-found error with the source's message. Deleted templates are never found, whatever `includeDeleted` says. |
| FlavorTemplateStore.SwapRemove | pkg/hvs/domain/mocks/flavortemplate_store.go:153-154 | The list loses one element. Its multiset is the old one minus the removed template. The removed slot holds the old last element and every other slot is unchanged. |
| FlavorTemplateStore.DeleteRemovesId | pkg/hvs/domain/mocks/flavortemplate_store.go:150-155 | When ids are distinct, no template with the deleted id remains, and ids stay distinct. |
| FlavorTemplateStore.MockFlavorTemplateStore.Delete | pkg/hvs/domain/mocks/flavortemplate_store.go:148-159 | With the id present, the first template with it is appended to the deleted list and the live list is swap-removed at its position. With the id absent, it returns not-found and both lists are unchanged. |
| FlavorTemplateStore.ConditionCopiesCount | pkg/hvs/domain/mocks/flavortemplate_store.go:123-129 | The condition test appends one copy of the template per condition equal to the criterion: as many as the multiset of conditions counts. |
| FlavorTemplateStore.PartCopiesAtMostOne | pkg/hvs/domain/mocks/flavortemplate_store.go:132-142 | The flavor-part test appends at most one copy. It appends one exactly when the named part (PLATFORM, OS or HOST_UNIQUE) is present. |
| FlavorTemplateStore.CopiesCount | pkg/hvs/domain/mocks/flavortemplate_store.go:104-143 | Per scanned template, the search appends only copies of it. It appends one for an id hit, one for a label hit, one per equal condition and at most one for a part. |
| FlavorTemplateStore.MatchesSnoc | pkg/hvs/domain/mocks/flavortemplate_store.go:104-143 | Scanning one more template appends exactly that template's copies after what came before. |
| FlavorTemplateStore.MatchesAppend | pkg/hvs/domain/mocks/flavortemplate_store.go:100-104 | Scanning the live list and then the deleted list appends what scanning each appends, in that order. |
| FlavorTemplateStore.MatchesFromScope | pkg/hvs/domain/mocks/flavortemplate_store.go:104-143 | Everything the search appends is a template it scanned. |
| FlavorTemplateStore.AppendIdMatch | pkg/hvs/domain/mocks/flavortemplate_store.go:106-113 | The id loop appends one copy when the template's id is among the criterion's ids, however often it occurs there (the loop breaks), and none otherwise. |
| FlavorTemplateStore.AppendConditionMatches | pkg/hvs/domain/mocks/flavortemplate_store.go:123-129 | The condition loop appends one copy per equal condition, in order. |
| FlavorTemplateStore.AppendPartMatch | pkg/hvs/domain/mocks/flavortemplate_store.go:131-142 | The part tests append one copy per present part whose name the criterion gives. |
| FlavorTemplateStore.AppendCopies | pkg/hvs/domain/mocks/flavortemplate_store.go:105-142 | One pass of the search loop appends the id, label, condition and part copies, in that order. |
| FlavorTemplateStore.MockFlavorTemplateStore.Search | pkg/hvs/domain/mocks/flavortemplate_store.go:99-145 | The result is the scanned list (live, then deleted when asked), then every match appended while scanning it. Nothing is filtered out, the store is unchanged and no error is returned. |
| FlavorTemplateStore.MockFlavorTemplateStore.Recover | pkg/hvs/domain/mocks/flavortemplate_store.go:162-164 | Always succeeds and changes nothing. |
| FlavorTemplateStore.MockFlavorTemplateStore.AddFlavorgroups | pkg/hvs/domain/mocks/flavortemplate_store.go:180-182 | Always succeeds and changes nothing. |
| FlavorTemplateStore.MockFlavorTemplateStore.RetrieveFlavorgroup | pkg/hvs/domain/mocks/flavortemplate_store.go:183-185 | Returns no link and no error. |
| FlavorTemplateStore.MockFlavorTemplateStore.RemoveFlavorgroups | pkg/hvs/domain/mocks/flavortemplate_store.go:186-188 | Always succeeds and changes nothing. |
| FlavorTemplateStore.MockFlavorTemplateStore.SearchFlavorgroups | pkg/hvs/domain/mocks/flavortemplate_store.go:190-192 | Returns nil ids and no error. |
| FlavorTemplateStore.MockFlavorTemplateStore.constructor | pkg/hvs/domain/mocks/flavortemplate_store.go:168 | An empty store has no live and no deleted templates. |
| FlavorTemplateStore.MockFlavorTemplateStore.NewFake | pkg/hvs/domain/mocks/flavortemplate_store.go:167-178 | The fake store holds exactly the default UEFI template, whose id is not Nil so Create keeps it, and no deleted template. |
| FlavorTemplateStore.DefaultUefiIdText | pkg/hvs/domain/mocks/flavortemplate_store.go:24 | The default template's id is the one its JSON document spells out, both when formatted and when parsed. |
| FlavorgroupStore.FirstPolicy | pkg/hvs/controllers/mocks/mock_flavorgroup_store.go:78-115 | The policy found for a flavor part is one the list holds for that part. None is found only when the list holds no policy for it. |
| FlavorgroupStore.PolicyFor | pkg/hvs/controllers/mocks/mock_flavorgroup_store.go:78-115 | A group's policy for a part comes from its policy collection. A group with a collection but no policy for the part gets none. |
| FlavorgroupStore.SeededPolicies | pkg/hvs/controllers/mocks/mock_flavorgroup_store.go:78-115 | The first seeded group sets OS to (AllOf, Required) and PLATFORM to (AnyOf, RequiredIfDefined), and no policy for other parts. The second sets HOST_UNIQUE to (AllOf, Required) and nothing else. |
| FlavorgroupStore.SeededIdText | pkg/hvs/controllers/mocks/mock_flavorgroup_store.go:79-102 | The seeded ids are the ones the source's texts parse to, and they format back to those texts. |
| FlavorgroupStore.FirstById | pkg/hvs/controllers/mocks/mock_flavorgroup_store.go:33-37 | Gives the first slot holding a group with the id, or none when no slot holds one. |
| FlavorgroupStore.FirstByName | pkg/hvs/controllers/mocks/mock_flavorgroup_store.go:50-54 | Gives the first slot holding a group with the name, or none when no slot holds one. |
| FlavorgroupStore.RetrieveSpec | pkg/hvs/controllers/mocks/mock_flavorgroup_store.go:32-39 | Succeeds exactly when some slot holds a group with the id. The group returned has that id and is in the table; otherwise the error is "record not found". |
| FlavorgroupStore.SearchSpec | pkg/hvs/controllers/mocks/mock_flavorgroup_store.go:42-65 | Every group a search returns is in the table; a search never makes a group up. A nil collection comes only from criteria that were given. |
| FlavorgroupStore.NameContainsMembers | pkg/hvs/controllers/mocks/mock_flavorgroup_store.go:55-62 | The substring search keeps exactly the groups whose name contains the substring. |
| FlavorgroupStore.NameContainsAppend | pkg/hvs/controllers/mocks/mock_flavorgroup_store.go:57-61 | The substring search keeps table order: searching a joined table is searching its parts in turn. |
| FlavorgroupStore.SearchPanicsIff | pkg/hvs/controllers/mocks/mock_flavorgroup_store.go:45-46 | Search panics exactly when an id criterion is given that is not a uuid. |
| FlavorgroupStore.SearchByIdText | pkg/hvs/controllers/mocks/mock_flavorgroup_store.go:45-48 | Searching by a group's id text returns the first group with that id, alone. |
| FlavorgroupStore.SearchByIdSingleton | pkg/hvs/controllers/mocks/mock_flavorgroup_store.go:45-48 | An id search returns one slot, which is nil exactly when no group has the id. |
| FlavorgroupStore.SearchByName | pkg/hvs/controllers/mocks/mock_flavorgroup_store.go:49-54 | An exact-name search returns nil exactly when no group has the name. Otherwise it returns the first group with that name, alone. |
| FlavorgroupStore.DeleteForgets | pkg/hvs/controllers/mocks/mock_flavorgroup_store.go:21-25 | With distinct ids, a deleted id can no longer be retrieved. |
| FlavorgroupStore.DeleteKeepsOthers | pkg/hvs/controllers/mocks/mock_flavorgroup_store.go:21-25 | Deleting one id changes what no other id retrieves. |
| FlavorgroupStore.CreateThenRetrieve | pkg/hvs/controllers/mocks/mock_flavorgroup_store.go:68-71 | An appended group is retrieved by its id unless an earlier group has the same id. |
| FlavorgroupStore.SeededSearchById | pkg/hvs/controllers/mocks/mock_flavorgroup_store.go:45-48 | On the seeded table, each seeded id text finds its own group. |
| FlavorgroupStore.SeededRetrieve | pkg/hvs/controllers/mocks/mock_flavorgroup_store.go:32-39 | On the seeded table, each seeded id retrieves its own group. |
| FlavorgroupStore.SeededSearchByName | pkg/hvs/controllers/mocks/mock_flavorgroup_store.go:49-54 | On the seeded table, the second group's exact name finds it alone. |
| FlavorgroupStore.FirstByIdAsWritten | pkg/hvs/controllers/mocks/mock_flavorgroup_store.go:22-23 | The scan as written panics exactly when a nil slot comes before the first group with the id. On a table without nil slots it agrees with `FirstById`. |
| FlavorgroupStore.DeleteThenRetrievePanics | pkg/hvs/controllers/mocks/mock_flavorgroup_store.go:21-37 | On the seeded table, after deleting the first group, the scan as written panics when it looks for the second group. Passing over nil slots finds it. |
| FlavorgroupStore.FirstByNameAsWritten | pkg/hvs/controllers/mocks/mock_flavorgroup_store.go:50-54 | The exact-name scan as written panics exactly when a nil slot comes before the first group with the name. On a table without nil slots it agrees with `FirstByName`. |
| FlavorgroupStore.NameContainsAsWritten | pkg/hvs/controllers/mocks/mock_flavorgroup_store.go:55-62 | The substring scan as written panics exactly when the table has a nil slot. When it returns, it returns what `NameContainsMatches` keeps. |
| FlavorgroupStore.SearchAsWritten | pkg/hvs/controllers/mocks/mock_flavorgroup_store.go:42-65 | Search as written, through the as-written scans. On a table without nil slots it equals `SearchSpec`. |
| FlavorgroupStore.DeleteThenSearchPanics | pkg/hvs/controllers/mocks/mock_flavorgroup_store.go:21-62 | On the seeded table, after deleting the first group, the search as written panics for the second group's exact name and for a piece of it. Passing over nil slots finds it. |
| FlavorgroupStore.MockFlavorgroupStore.constructor | pkg/hvs/controllers/mocks/mock_flavorgroup_store.go:76 | An empty table. |
| FlavorgroupStore.MockFlavorgroupStore.NewFake | pkg/hvs/controllers/mocks/mock_flavorgroup_store.go:75-118 | The fake table holds the two seeded groups, in order. |
| FlavorgroupStore.MockFlavorgroupStore.Create | pkg/hvs/controllers/mocks/mock_flavorgroup_store.go:68-71 | Appends the group (nil included) at the end and returns it. Every other slot is unchanged. |
| FlavorgroupStore.MockFlavorgroupStore.Retrieve | pkg/hvs/controllers/mocks/mock_flavorgroup_store.go:32-39 | Returns what `RetrieveSpec` describes. |
| FlavorgroupStore.MockFlavorgroupStore.Delete | pkg/hvs/controllers/mocks/mock_flavorgroup_store.go:21-29 | With the id present, writes nil into the first slot holding it and nothing else; the table keeps its length. With the id absent, returns "record not found" and leaves the table unchanged. |
| FlavorgroupStore.MockFlavorgroupStore.Search | pkg/hvs/controllers/mocks/mock_flavorgroup_store.go:42-65 | Returns what the precedence of criteria describes: the whole table for nil criteria, then id, exact name, name substring, else nil. |
| HostStatusStore.SqlWellFormed | pkg/hvs/postgres/hoststatus_store.go:206-210 | The store's texts let a host join be told from a WHERE clause by its first letter. |
| HostStatusStore.EffectiveFilter | pkg/hvs/postgres/hoststatus_store.go:262-266 | A day count replaces the from-date by "now minus that many days". Without one the filter is unchanged, and no other field ever changes. |
| HostStatusStore.QueryText | pkg/hvs/postgres/hoststatus_store.go:286-294 | The query selects all columns and always holds the options, with and without the latest-per-host sub-query. |
| HostStatusStore.AndAllKeepsPrefix | pkg/hvs/postgres/hoststatus_store.go:213-280 | Appending clauses never changes how the options start. |
| HostStatusStore.AndAllHoldsGiven | pkg/hvs/postgres/hoststatus_store.go:213-280 | Every clause of a set field occurs, after ` AND `, in the options. |
| HostStatusStore.WhereClauseInOrder | pkg/hvs/postgres/hoststatus_store.go:206-280 | The WHERE clause is the base clause, then one clause per set field in the order host id, host name, hardware uuid, host state, status id, dates. |
| HostStatusStore.WhereClauseSteps | pkg/hvs/postgres/hoststatus_store.go:213-280 | The host and status clauses taken from the caller's filter, followed by the date clause taken from the filter with the day count applied, form the WHERE clause of the filter with the day count applied. |
| HostStatusStore.NoFilterGivesBase | pkg/hvs/postgres/hoststatus_store.go:206 | With no filter field set, the options are the base clause alone. |
| HostStatusStore.WhereHoldsSetFilters | pkg/hvs/postgres/hoststatus_store.go:206-280 | The WHERE clause starts with the base clause and holds the clause of every set field. |
| HostStatusStore.JoinIffHostName | pkg/hvs/postgres/hoststatus_store.go:209-211 | The options start with the host join exactly when a host name is given; otherwise they start with the base clause. |
| HostStatusStore.WhereUsesAlias | pkg/hvs/postgres/hoststatus_store.go:199-206 | The options hold the host-status base clause under the alias, which is `auj` with latest-per-host and `au` otherwise. |
| HostStatusStore.DateTextHoldsBounds | pkg/hvs/postgres/hoststatus_store.go:268-280 | A set from-date gives a `>=` bound and a set to-date a `<=` bound. With both set, one clause holds both. |
| HostStatusStore.HostStateCaseInsensitive | pkg/hvs/postgres/hoststatus_store.go:250-252 | A host state and its upper-case form give the same query. |
| HostStatusStore.HardwareUuidLowerCase | pkg/hvs/postgres/hoststatus_store.go:243-246 | Lower-casing a uuid's text changes nothing, so the JSON-path hardware clause compares against the uuid's own text. |
| HostStatusStore.NumberOfDaysOverridesFromDate | pkg/hvs/postgres/hoststatus_store.go:262-266 | With a day count, the caller's from-date does not affect the query. |
| HostStatusStore.NoDaysIgnoresClock | pkg/hvs/postgres/hoststatus_store.go:262-266 | Without a day count, the clock does not affect the query. |
| HostStatusStore.AppendHostConditions | pkg/hvs/postgres/hoststatus_store.go:213-247 | The host branch appends the host id, host name and hardware uuid clauses of the set fields, in that order, on host columns when joined and on JSON paths otherwise. |
| HostStatusStore.AppendStatusConditions | pkg/hvs/postgres/hoststatus_store.go:249-259 | Appends the upper-cased host state clause, then the status id clause, for the set fields. |
| HostStatusStore.AppendDateCondition | pkg/hvs/postgres/hoststatus_store.go:268-280 | Appends one date clause when either date is set, and nothing otherwise. |
| HostStatusStore.BuildWhereClause | pkg/hvs/postgres/hoststatus_store.go:206-280 | Rebuilding the options clause by clause gives the declarative WHERE clause of the filter with the day count applied. It also returns that filter. |
| HostStatusStore.BuildHostStatusSearchQuery | pkg/hvs/postgres/hoststatus_store.go:192-300 | The raw query is the declarative query text of the filter with the day count applied, with the caller's limit. The filter as the caller afterwards sees it is returned. |
| HostStatusStore.MaxDateJoinAsWritten | pkg/hvs/postgres/hoststatus_store.go:287-290 | The sub-query as written is the corrected sub-query with the space between `max_date` and `FROM` dropped, and nothing else changed. |
| HostStatusStore.MaxDateMissingSpace | pkg/hvs/postgres/hoststatus_store.go:287-290 | As written, the sub-query holds `max_date` run into `FROM`; corrected, it holds them apart and is one space longer. |
| HostStatusStore.MaxDateReachable | pkg/hvs/postgres/hoststatus_store.go:77-99 | A latest-per-host search with a from-date goes to the audit log, and its query holds the sub-query. |
| HostStatusStore.ScanStatuses | pkg/hvs/postgres/hoststatus_store.go:90-97 | The latest-table scan succeeds exactly when every row scans. It then gives one status per row, in row order. A failure carries the scan-failure message. |
| HostStatusStore.ScanAuditLog | pkg/hvs/postgres/hoststatus_store.go:111-124 | The audit scan succeeds only when every row scans, and gives at most one status per row. A failure carries the scan-failure or conversion-failure message. |
| HostStatusStore.ScanStatusesStops | pkg/hvs/postgres/hoststatus_store.go:90-97 | The first scan error ends the latest-table scan: later rows do not change the outcome. |
| HostStatusStore.ScanAuditLogStops | pkg/hvs/postgres/hoststatus_store.go:111-124 | The first scan or conversion error ends the audit scan: later rows do not change the outcome. |
| HostStatusStore.ScanAuditLogKeepsOrder | pkg/hvs/postgres/hoststatus_store.go:111-124 | When every row scans and every kept entry converts, there is one status per kept entry, in row order. |
| HostStatusStore.SkippedRowIgnored | pkg/hvs/postgres/hoststatus_store.go:116-118 | An audit entry without columns never changes the outcome. |
| HostStatusStore.SearchSpec | pkg/hvs/postgres/hoststatus_store.go:68-128 | Every error Search returns carries one of its three messages: retrieval, scan or conversion. On the latest-table branch, a success has one status per row; on the audit branch, at most one per row. |
| HostStatusStore.SearchBranch | pkg/hvs/postgres/hoststatus_store.go:77-99 | The latest-status table is read exactly when both dates are zero and latest-per-host is set; only the chosen query's answer matters. |
| HostStatusStore.ScanStatusRows | pkg/hvs/postgres/hoststatus_store.go:90-97 | The row loop computes the latest-table scan. |
| HostStatusStore.ScanAuditRows | pkg/hvs/postgres/hoststatus_store.go:111-124 | The row loop computes the audit scan. |
| HostStatusStore.Search | pkg/hvs/postgres/hoststatus_store.go:68-128 | Returns what `SearchSpec` describes. Also returns the filter as the caller sees it afterwards: unchanged on the latest-table branch; on the audit-log branch, its from-date is overwritten when a day count is given (line 265). |
| HostStatusStore.Update | pkg/hvs/postgres/hoststatus_store.go:130-154 | Succeeds exactly when the id is not Nil and the database reports no error and one affected row. A Nil id gives the invalid-id error. |
| HostStatusStore.UpdateNilIdIgnoresDb | pkg/hvs/postgres/hoststatus_store.go:134-136 | A Nil id is refused whatever the database would answer. |
| UpdateServiceConfig.ServerSection | pkg/authservice/tasks/update_service_config.go:83-87 | The written server section equals the task's server settings except perhaps the port. The port is kept when in range and replaced by the default otherwise; with a valid default it is always valid. |
| UpdateServiceConfig.ServerSectionIdempotent | pkg/authservice/tasks/update_service_config.go:83-87 | With a valid default, applying the fallback again changes nothing. |
| UpdateServiceConfig.ServerSectionPort | pkg/authservice/tasks/update_service_config.go:83-86 | The written port is the configured one or the default, and differs from the configured one only when that one is out of range. |
| UpdateServiceConfig.UpdateServiceConfig.Validate | pkg/authservice/tasks/update_service_config.go:91-100 | Fails, with "Configured port is not valid", exactly when the configured server port is outside [1024, 65535]. |
| UpdateServiceConfig.UpdateServiceConfig.Run | pkg/authservice/tasks/update_service_config.go:50-89 | Writes the log, JWT, auth-defender and NATS sections from the settings read and the server section with the port fallback. It leaves every other section alone and returns no error. With a valid default, `Validate` succeeds afterwards. |
| UpdateServiceConfig.ValidateAfterRunIff | pkg/authservice/tasks/update_service_config.go:83-97 | After `Run`, the port is valid exactly when the configured port or the default is valid. |
| Uuids.FormatThenParse | pkg/hvs/controllers/mocks/mock_flavorgroup_store.go:46 | Parsing a uuid's canonical text gives the uuid back. |
| Uuids.NewRandomNotNil | pkg/hvs/domain/mocks/flavortemplate_store.go:79 | A generated version-4 uuid is never Nil. |
| Strings.ToUpperIdempotent | pkg/hvs/postgres/hoststatus_store.go:251 | Upper-casing leaves no lower-case letter, and upper-casing twice is upper-casing once. |
| Strings.ToLowerFixes | pkg/hvs/postgres/hoststatus_store.go:244 | Lower-casing a text without upper-case letters gives it back. |

## Left out

- The trust manager, verifier and rule engine of HVS are not part of this model. Neither are the
  host connector, the routers and controllers, the key-broker configuration or the ihub tests.
- `NewFakeFlavorTemplateStore` reads its template from a JSON document. The model takes the decoded
  template as a constant and leaves out the JSON decoding and the printing of its error.
- `uuid.New` and `uuid.MustParse` come from a library. Generation takes its random bytes as a
  parameter. Parsing accepts the canonical 36-character form only; the library's other spellings
  (braces, `urn:uuid:`, no dashes) are not modelled.
- Search and Update on the host-status store leave out everything on the database side: gorm,
  `Rows`, `Scan` and `Updates`. The database's answers are parameters: rows or a retrieval error
  per query, and an error and affected-row count per update. The query's `Limit` is kept as a
  number beside the SQL text.
- `buildLatestHostStatusSearchQuery` builds its query through gorm's where-chain. The model leaves
  it out: the latest-table rows are a function of the filter.
- `auditlogEntryToHostStatus` decodes JSON. It is the parameter `convert`.
- Whether an audit entry is skipped is decided by its column count alone. `AuditTableData` is
  modelled by its columns, so an entry equal to the empty `AuditTableData` is one without columns.
- The `tx == nil` branches of `Search` are left out: the query builders never return nil.
- `time.Now` is the parameter `now`. A time is whole seconds in UTC, and a day is 86400 seconds.
  The date text `constants.ParamDateFormatUTC` gives is a parameter.
- A uuid's text form in the query is a parameter of the query description. `Search` supplies
  `Uuids.Format`, the canonical lower-case text.
- HostStatusStore.AppendHostConditions: the JSON-path host-name clause is kept as the source writes
  it, although no call can reach it: a host name always brings the join.
- Logging, tracing and deferred `rows.Close` calls are left out.
- HostStatusStore.AppendStatusConditions: the host state is upper-cased by ASCII letters only. Go's
  `strings.ToUpper` maps all of Unicode, so a state such as "é" is queried as "É" by the source and
  unchanged by the model. The hardware uuid's lower-casing only ever sees hex text, where the two
  agree.
- FlavorTemplateStore.MockFlavorTemplateStore.Search: the result is a value. The source's result
  shares the store's backing array, so a later in-place Delete can change a result already
  returned. That aliasing is not captured.
- FlavorgroupStore.MockFlavorgroupStore.Search: with nil criteria the source returns the store's
  own slice, so a later Delete's nil shows through the collection already returned. The model
  returns a value and does not capture that aliasing.
- FlavorgroupStore.MockFlavorgroupStore.Retrieve: the source returns the stored pointer, shared
  with the table. The model returns the group as a value.
- Nil pointer arguments are not modelled: nil criteria to the flavor-template Search and a nil id
  to the flavor-group Delete and Retrieve panic in the source. Here those arguments are values that
  cannot be nil.
- `UpdateServiceConfig`: the viper reads are inputs (`Settings`). Besides the five sections it
  writes, the configuration is one opaque value (`OtherSections`), since the auth service's
  configuration type is not part of this model. `PrintHelp` writes help text to a console and is
  left out. `SetName` does nothing and is left out. The console writer is not modelled.
- `commConfig.ServerConfig` is not part of this model. Its fields follow the setting names the task
  documents (port, four timeouts, maximum header bytes).

## Findings

| source | as written | input that shows it | evidently intended | confidence | as-written member | corrected member |
|---|---|---|---|---|---|---|
| pkg/hvs/controllers/mocks/mock_flavorgroup_store.go:22-23,33-34,50-51,57-58 | The Retrieve, Delete and Search scans read `fg.ID` or `fg.Name` of every slot they pass, including the nil slots that Delete leaves behind. | `NewFakeFlavorgroupStore()`, then `Delete` of the first group's id, then `Retrieve` of the second group's id, or `Search` for its name: a nil pointer dereference. | Nil slots are passed over, so the second group is found. | high; not executed | FlavorgroupStore.FirstByIdAsWritten, FlavorgroupStore.DeleteThenRetrievePanics, FlavorgroupStore.FirstByNameAsWritten, FlavorgroupStore.NameContainsAsWritten, FlavorgroupStore.SearchAsWritten, FlavorgroupStore.DeleteThenSearchPanics | FlavorgroupStore.MockFlavorgroupStore.Retrieve, FlavorgroupStore.MockFlavorgroupStore.Delete, FlavorgroupStore.MockFlavorgroupStore.Search |
| pkg/hvs/postgres/hoststatus_store.go:287-288 | The latest-per-host sub-query joins `AS max_date` directly to `FROM audit_log_entry auj`, giving `max_dateFROM`. The sub-query then has no FROM clause and no `max_date` column. | Search with `LatestPerHost` set and a non-zero `FromDate` (HostStatusStore.MaxDateReachable). | `max_date FROM audit_log_entry auj`, with a space. | high; not executed | HostStatusStore.MaxDateJoinAsWritten, HostStatusStore.MaxDateMissingSpace | HostStatusStore.BuildHostStatusSearchQuery, HostStatusStore.MaxDateMissingSpace |

The Dafny classes and query builder use the corrected behaviour.
