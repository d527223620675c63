# A verified model of the CSV and ElasticSearch drivers

This project models two drivers of a tool that copies data between stores.

**The CSV target driver** (`drivers/csv.driver.js`) has these parts:

- `escape` turns one value into a CSV cell.
- `putMeta` hands out column numbers to the properties found in the metadata and writes the header line.
- `putData` writes one line per document.
- `reset` clears the column schema.
- `verifyOptions` checks the options.
- The three source-role entry points only throw.

The module-level `propertyMap` and `indexCounter` of the driver are the fields of the class `CsvDriver.CsvTarget`. So is the output file, held as "does it exist" plus its text.

**The ElasticSearch driver** (`drivers/es.js`) is modelled for its decisions:

- the paths it requests;
- the scope it records in the metadata;
- the three shapes of the search body;
- the retry counter shared by `getData` and `storeHits`;
- the scroll cursor kept between `getData` calls, which is the field of `EsDriver.EsSource`;
- the order in which the index-creation writes go out and their callbacks fire;
- the completion counter of `createAllMeta`, which is the fields of `EsDriver.AllMetaCreation`.

Every HTTP exchange is abstracted as a `Reply`. A reply is a body that parsed as JSON, a body that did not, or a transport error. Each operation is a run over the replies its requests meet. A run gives the requests sent, in order, and how the call ended: the callback fired, it never will, the process exited, or a property read threw.

The module `Js` holds the parts of the JavaScript host both drivers rely on:

- values (`undefined`, `null`, booleans, numbers, strings, arrays, objects with ordered fields);
- ToBoolean, property reads and writes, and `String(v)` for values whose conversion does not throw;
- `Array.prototype.join` and `JSON.stringify`;
- `String.prototype.trim`;
- `isNaN` on strings, following the StrNumericLiteral grammar of section 7.1.4.1.1 of ECMA-262.

Quirks of the code are kept as they are and stated as lemmas:

- a property at column 0 is reassigned;
- only the first `"` is escaped;
- the empty-separator check never fires;
- a first call's retry counter never climbs;
- the `[]` fallback for `hits` only takes effect for a `hits` that is falsy but not null or undefined.

## Model

| member | source | states |
|---|---|---|
| CsvDriver.VerifyOptions | drivers/csv.driver.js:56-70 | Errors are reported exactly when the csv driver is the source, and then only the import error. The empty-separator check never adds one, since `separator.trim` is a method and never `''`, so the separator is not an input. |
| CsvDriver.CallSourceOperation | drivers/csv.driver.js:88-94 | `getSourceStats`, `getMeta` and `getData` (lines 155-157) always throw the import error. |
| CsvDriver.Escape | drivers/csv.driver.js:96-121 | Models `escape` as the text the cell contributes. Its rules are stated by the lemmas in the rows below. |
| CsvDriver.EscapeFalsy | drivers/csv.driver.js:97-99 | Every falsy value escapes to the empty cell, whatever the options. |
| CsvDriver.EscapeNumericUnchanged | drivers/csv.driver.js:100-102 | A string for which isNaN is false comes back unchanged: never trimmed, never quoted, even with quoteEverything. |
| CsvDriver.EscapeNotNaN | drivers/csv.driver.js:100-102 | Any truthy value that isNaN accepts comes back as its text: a number, a numeric or whitespace-only string, or an array with numeric text. It is never stringified, trimmed or quoted. |
| CsvDriver.EscapeStringified | drivers/csv.driver.js:103-105 | An object, and an array that isNaN rejects, escapes exactly as the string JSON.stringify gives for it. |
| CsvDriver.TwoDigitsUnquoted | drivers/csv.driver.js:100-102 | Under any options, quoteEverything included, a two-digit string and a two-digit number are returned unquoted. |
| CsvDriver.TabSeparatorValueNotQuoted | drivers/csv.driver.js:100-112 | A whitespace-only value equal to a tab separator counts as numeric, so it is not quoted. |
| CsvDriver.EscapeIdentity | drivers/csv.driver.js:103-120 | With trimming and forced quoting off, a string with no newline, `"` or separator escapes to itself. |
| CsvDriver.EscapeWrappedIff | drivers/csv.driver.js:106-119 | A non-numeric string is wrapped in quotes if and only if the quoting test holds of its stringified, trimmed text. |
| CsvDriver.EscapeRewritesFirstQuoteOnly | drivers/csv.driver.js:113-118 | Only the first `"` is replaced, by `\"` under unixQuotes and by `""` otherwise. The text around it is kept. |
| CsvDriver.QuoteFound | drivers/csv.driver.js:111 | A text holding `"` always passes the quoting test. |
| CsvDriver.ReplaceFirstQuoteSpec | drivers/csv.driver.js:114-116 | `replace('"', …)` rewrites the first `"` if there is one and leaves the text alone otherwise. |
| CsvDriver.OnlyFirstQuoteDoubled | drivers/csv.driver.js:109-119 | With default options, `a"b"c` becomes `"a""b"c"`. The second quote is not escaped. |
| CsvDriver.SeparatorValueQuoted | drivers/csv.driver.js:109-112 | A value equal to the separator is quoted, unless it is numeric-looking or trimming would change it. |
| CsvDriver.EmptySeparatorQuotesEverything | drivers/csv.driver.js:112 | `indexOf('')` is 0, so with an empty separator every non-numeric value is quoted. |
| CsvDriver.CsvTarget.Reset | drivers/csv.driver.js:75-79 | The map is empty and the counter is 0 after any state, so resetting twice equals resetting once. The file is untouched. |
| CsvDriver.CsvTarget.PutMeta | drivers/csv.driver.js:123-153 | The new schema is the column assignment over the metadata's properties. The file is truncated unless append. The header is written when wanted and the file is absent or empty. The schema invariant is kept. Null or undefined metadata throws after the truncation, with the schema unchanged. |
| CsvDriver.CsvTarget.AssignColumns | drivers/csv.driver.js:134-146 | The loop's map, counter and header equal the column assignment and the header line of the names it added. |
| CsvDriver.Assign | drivers/csv.driver.js:134-146 | Models the assignment loop over the visited names with the `!propertyMap[property]` test. Its properties are stated by the Assign* lemmas below. |
| CsvDriver.MetaProperties | drivers/csv.driver.js:134-137 | Models the names the four nested for-in loops visit, in order. |
| CsvDriver.HeaderLine | drivers/csv.driver.js:129-141 | Models the header: its start, then a separator and the escaped name of each column added. |
| CsvDriver.MetaFile | drivers/csv.driver.js:124-151 | Models the file after `putMeta`. Its cases are stated by `MetaFileCases`. |
| CsvDriver.AssignKeepsConsistent | drivers/csv.driver.js:138-139 | New columns are the counter, the counter plus one, and so on, in the order added. Every mapped property sits at the column the header names it at. |
| CsvDriver.AssignKeepsNonZeroColumns | drivers/csv.driver.js:138 | A property already at a non-zero column keeps it. |
| CsvDriver.AssignCovers | drivers/csv.driver.js:137-141 | Every property met gets a column, except names inherited from Object.prototype, which never get one. |
| CsvDriver.ColumnZeroReassigned | drivers/csv.driver.js:138-140 | A name met twice in a fresh schema moves from column 0 to 1 and appears twice in the header. |
| CsvDriver.FreshAssign | drivers/csv.driver.js:134-146 | On a fresh schema, distinct names get columns 0, 1, 2, … in order, and all of them enter the header. |
| CsvDriver.ReassignFirst | drivers/csv.driver.js:138-140 | Meeting again the names at columns 0, 1, …, only the column-0 name is moved to the next column and re-added to the header. |
| CsvDriver.RepeatedPutMeta | drivers/csv.driver.js:134-146 | Two `putMeta` calls with the same fields: the second duplicates only the first field. |
| CsvDriver.HeaderNamesMatchColumns | drivers/csv.driver.js:138-140 | After a fresh assignment, the header names every mapped property at the column its values go to. |
| CsvDriver.NameAgeProperties | drivers/csv.driver.js:134-137 | The four nested for-in loops visit the property names of a sample mapping in order. |
| CsvDriver.MetaFileCases | drivers/csv.driver.js:124-151 | The file after `putMeta`, by `append`, `noheader`, whether the file exists and whether it is empty. |
| CsvDriver.CsvTarget.PutData | drivers/csv.driver.js:159-170 | One line per document is appended, up to the first null or undefined document, where the call throws. The schema, and whether it is consistent, are not changed. |
| CsvDriver.CsvTarget.RenderRows | drivers/csv.driver.js:160-168 | The text of the documents' lines, in order, up to the first null or undefined document, and whether one was met. |
| CsvDriver.CsvTarget.RenderRow | drivers/csv.driver.js:161-167 | A line is `_index`, `_type`, then the field cells, joined by the separator. |
| CsvDriver.CsvTarget.FieldCells | drivers/csv.driver.js:161-164 | The cells after the field loop over `_source`. |
| CsvDriver.Cells | drivers/csv.driver.js:161-164 | Models the cell array of one document. Its shape is stated by the Cells* lemmas below. |
| CsvDriver.Line | drivers/csv.driver.js:165-167 | Models one document's line: `_index`, `_type`, then the cells, joined by the separator, then a newline. |
| CsvDriver.Rows | drivers/csv.driver.js:160-168 | Models the text appended for a batch: the lines of the documents, in order. |
| CsvDriver.CellsDropUnknown | drivers/csv.driver.js:162-164 | Fields without a column do not change the row. |
| CsvDriver.CellsLength | drivers/csv.driver.js:161-164 | There is at least one cell and every filled column is inside the array. There is no padding past the last filled column. |
| CsvDriver.CellsFilled | drivers/csv.driver.js:163 | A field lands, escaped, in its column unless a later field writes the same column. |
| CsvDriver.CellsUnfilled | drivers/csv.driver.js:161-163 | A column no field fills is empty. Column 0 keeps the `[propertyMap.length]` cell. |
| CsvDriver.TrailingColumnsNotPadded | drivers/csv.driver.js:161-163 | With columns a, b, c, a document holding only `a` yields one cell. |
| CsvDriver.LengthPropertyQuirk | drivers/csv.driver.js:161 | A property named `length` shows its column number in column 0. |
| CsvDriver.SetCell | drivers/csv.driver.js:163 | An array index write grows the array as needed. The holes it leaves are empty, and other cells are kept. |
| Js.TrimSpec | drivers/csv.driver.js:107 | `trim` keeps the slice between an all-white prefix and an all-white suffix. That slice neither starts nor ends with white space. |
| Js.TrimEmptyIsWhite | drivers/csv.driver.js:107 | A value trims to nothing if and only if it is all white space. |
| EsDriver.MappingPath | drivers/es.js:6-13 | Models the mapping read path. Its cases are stated by `MappingPathCases`. |
| EsDriver.MappingPathCases | drivers/es.js:6-13 | The mapping read path: `/`, then the index if set, the type if set, then `_mapping`. |
| EsDriver.ReadMeta | drivers/es.js:4-53 | Models `getMeta` followed by `getSettings` over the two replies. Its requests and outcomes are stated by the ReadMeta* lemmas below. |
| EsDriver.ReadMetaRequests | drivers/es.js:14-26 | The mapping read is always sent. The settings read is sent if and only if the mapping parsed into usable metadata and no type is set. |
| EsDriver.ReadMetaOutcomes | drivers/es.js:14-52 | The callback fires exactly when every read arrived and parsed and nothing dereferenced is null or undefined. A transport error on either read stalls it. |
| EsDriver.ReadMetaMappingsAndSettings | drivers/es.js:20-49 | Without an index, the reply is under `mappings`. For the `all` and `index` scopes, `settings` is that of the settings reply. |
| EsDriver.ReadMetaKeeps | drivers/es.js:20-24 | Every other property of the metadata is kept. |
| EsDriver.Scoped | drivers/es.js:30-37 | Models the scope writes of `getSettings`. Their effect is stated by `ScopedSpec` and `ScopedKeeps`. |
| EsDriver.ScopedSpec | drivers/es.js:30-37 | The last scope write wins: `type` if a type is set, else `index` if an index is set, else `all`. |
| EsDriver.ScopedKeeps | drivers/es.js:30-37 | The scope writes change no other property. |
| EsDriver.ReadMetaScope | drivers/es.js:30-40 | Delivered metadata carries the name of its scope. |
| EsDriver.SettingsPath | drivers/es.js:31-42 | Models the settings read path. Its cases are stated by `SettingsPathCases`. |
| EsDriver.SettingsPathCases | drivers/es.js:31-42 | The settings path is `/`, the index if set, then `_settings`. The type plays no part. |
| EsDriver.TypeMappingPath | drivers/es.js:57-63 | Models the mapping write path. Its cases are stated by `TypeMappingPathCases`. |
| EsDriver.IndexPath | drivers/es.js:64-68 | Models the index creation path, `/` followed by the text of targetIndex. |
| EsDriver.TypeMappingPathCases | drivers/es.js:57-63 | All four cases: the mapping write path tests the source index and type but writes the target index and type. |
| EsDriver.CreateTypeMeta | drivers/es.js:55-83 | Models `createTypeMeta` over the two replies. Its order is stated by `CreateTypeMetaOrder`. |
| EsDriver.CreateTypeMetaOrder | drivers/es.js:64-82 | The index PUT goes first. The mapping PUT, with the `{"metadata": …}` body, goes only after it is answered and the metadata is readable. The callback fires exactly when both are answered. |
| EsDriver.TypeMappingBodyDefined | drivers/es.js:77-79 | The mapping body is `{"metadata": …}`. |
| EsDriver.TypeMappingBodyEmpty | drivers/es.js:77-79 | The mapping body is `{}` when `metadata.metadata` is undefined. |
| EsDriver.CreateIndexMeta | drivers/es.js:85-98 | Models `createIndexMeta` over its reply. Its run is stated by `CreateIndexMetaRuns`. |
| EsDriver.CreateIndexMetaRuns | drivers/es.js:85-98 | One PUT to `/targetIndex`. The callback fires exactly when it is answered. |
| EsDriver.IndexBodySettingsEqualMappings | drivers/es.js:94-97 | The body holds `metadata[sourceIndex]` as both `settings` and `mappings`. |
| EsDriver.IndexBodyUnknownIndex | drivers/es.js:94-97 | When that value is undefined, the body is `{}`. |
| EsDriver.IssueAll | drivers/es.js:110-123 | One PUT per key of `metadata.mappings`, in order, each carrying that index's settings and mappings. The count equals the number of keys. Null settings throw after the first count. |
| EsDriver.AllMetaCreation.Issue | drivers/es.js:100-123 | `numIndices` goes up by what the loop counted, and the writes are those of the loop. |
| EsDriver.IndexRequests | drivers/es.js:110-123 | Models the writes of the `createAllMeta` loop for given index names. |
| EsDriver.IndexRequestsSpec | drivers/es.js:110-122 | The i-th write is the one for the i-th index. |
| EsDriver.AllMetaCreation.Done | drivers/es.js:104-109 | `indicesDone` goes up by one, and the callback fires if and only if it now equals `numIndices`. |
| EsDriver.AllMetaCreation.Answers | drivers/es.js:104-109 | Over k answers, the callback fires as often as `Firings` counts. |
| EsDriver.FiresOnce | drivers/es.js:104-109 | The callback fires exactly once when the answers reach the number of indices, and never with zero indices. |
| EsDriver.Query | drivers/es.js:138-183 | Models the three shapes of the search body. Their content is stated by `QueryShape` and `QueryTypeFilter`. |
| EsDriver.QueryShape | drivers/es.js:138-183 | Every body asks for the seven meta-fields and `sourceSize` hits. The query is wrapped in `indices` if and only if an index or a type is set. |
| EsDriver.QueryTypeFilter | drivers/es.js:162-183 | A type filter is present if and only if a type is set, and it holds that type. |
| EsDriver.TypeWithoutIndex | drivers/es.js:169-174 | With a type and no index, the `indices` list serialises as `[null]`. |
| EsDriver.RetryStep | drivers/es.js:128-136 | Models the counter check at the start of a call. Its closed form is stated by `RetryStepCountsDown`. |
| EsDriver.RetryStepCountsDown | drivers/es.js:128-136 | One counter step agrees with the closed form: it aborts when no error is left, and otherwise leaves one error fewer. |
| EsDriver.ZeroNeverAborts | drivers/es.js:128-130 | A counter of 0 stays 0 and never aborts. |
| EsDriver.ReadRun | drivers/es.js:127-228 | Models one `getData` call with its retries over the replies met. Its behaviour is stated by `ReadRunSpec` and the ReadRun* lemmas. |
| EsDriver.ReadRunFromZero | drivers/es.js:206-210 | A first call, with no counter, never aborts, whatever errors it meets. |
| EsDriver.ReadRunAbortIff | drivers/es.js:128-136 | Under transport errors only, a call aborts if and only if the closed form gives a count within the errors met. It then has sent that many requests. Otherwise it waits after one request more than the errors. |
| EsDriver.ReadRunSameRequest | drivers/es.js:199-227 | Every retry re-sends the request of the first attempt. |
| EsDriver.DataRequest | drivers/es.js:199-227 | Models the request a call sends for the current cursor. Its cases are stated by `DataRequestCases`. |
| EsDriver.DataRequestCases | drivers/es.js:199-227 | A null cursor gives the scan search with the query as JSON. A string cursor gives the scroll request with the cursor as its body. Any other falsy cursor gives the scroll request with no body. A truthy cursor that is not a string gives no request. |
| EsDriver.ReadRunFirstArrival | drivers/es.js:185-197 | A reply that arrives at the first attempt ends the call with the handler's outcome and cursor. |
| EsDriver.ReadRunSpec | drivers/es.js:127-228 | Over any replies, with every attempt sending the same request by `ReadRunSameRequest`: the call aborts if and only if the counter reaches errorsAllowed before a reply arrives, after that many requests. Otherwise, after k transport errors, the first arriving reply ends the call on request k + 1 with the handler's outcome and cursor. With no reply yet, the last request is pending. |
| EsDriver.ReadRunBadCursor | drivers/es.js:199-212 | A cursor `end` cannot write sends nothing and crashes the call, unless the counter aborts it first. |
| EsDriver.Handle | drivers/es.js:185-197 | Models the result handler. Its cases are stated by `HandleCases` and `HandleDelivers`. |
| EsDriver.HandleDelivers | drivers/es.js:194-195 | The cursor becomes `_scroll_id`. An object `hits` delivers its `hits` and `total`. A falsy `hits` that is not null or undefined delivers `[]` and undefined, the only case where the fallback applies. A truthy primitive `hits` delivers undefined twice. |
| EsDriver.HandleCases | drivers/es.js:190-196 | Every handled reply overwrites the cursor with `_scroll_id`. A reply without `hits`, or unparsable, crashes despite the `[]` fallback. |
| EsDriver.NextCallScrolls | drivers/es.js:194-212 | A reply with a string cursor makes the next call scroll with it. |
| EsDriver.EsSource.GetData | drivers/es.js:126-228 | The requests, the outcome and the new `scrollId` are those of the read run from the old `scrollId`. |
| EsDriver.Attempt | drivers/es.js:127-227 | The loop over retries computes exactly the read run. |
| EsDriver.StoreAttempts | drivers/es.js:230-258 | Models one `storeHits` call with its retries over the replies met. Its behaviour is stated by `StoreAttemptsSpec`. |
| EsDriver.StoreAttemptsSpec | drivers/es.js:230-258 | Every request is the same `_bulk` POST. The callback fires once, on the first reply, unless the counter aborts first. Also states the number of requests sent. |
| EsDriver.StoreHits | drivers/es.js:230-258 | The loop over retries computes exactly the write run. |

## Left out

- `drivers/hbase.driver.js` is a stub returning fixed sample objects; it is not part of this model.
- The `getInfo` option tables and `getTargetStats` are static data with no behaviour.
- HTTP transport, the socket-pool setting (`drivers/es.js:2`), chunk accumulation and the one-second `setTimeout` before a retry are not modelled. A request is its method, path and body; its answer is a `Reply` given as input.
- `process.exit` is the outcome `DataAborted`/`StoreAborted`.
- Logging (`console.log`, `log.info`) is left out.
- `JSON.parse` is not modelled. A reply carries the already-parsed value, or the raw text when parsing failed.
- Numbers are abstract: a number is the text `Number.prototype.toString` gives for it, so no arithmetic on values is modelled.
- For-in over arrays and strings, array indices, and the prototype chain of property reads on primitives are not modelled. Only objects have readable properties.
- The inherited names of `Object.prototype` are fixed as a set, and only matter for `!propertyMap[p]`.
- Objects with duplicate keys are not excluded. A read finds the first field of that name.
- File-system calls are reduced to "exists" plus the text.
- Js.ToText: an object with its own `toString` key (from parsed JSON, so never callable) makes `String(v)`, `isNaN(v)` and `join` throw a TypeError, as does an array holding such an object. The model renders it as `[object Object]` instead. Such objects are not modelled.
- CsvDriver.Escape: for a value whose conversion throws as above, `isNaN(data)` throws inside `escape`. The model does not capture that crash and stringifies the value instead.
- CsvDriver.CsvTarget.PutData: a document with a field whose conversion throws as above makes `escape`, or `line.join`, throw. The model only stops at a null or undefined document, so it reports no throw for such a document and appends its line.
- CsvDriver.CsvTarget.PutData: the asynchronous `appendFile` calls are modelled as appended in document order, all at once, and before the callback. Their real completion order is not modelled.
- `verifyOptions` does not model the existence warning for the output file, which is only logged.
- `JSON.stringify` of top-level `undefined` (which returns `undefined`, not text) is rendered as `null`. Array holes are not modelled.
- EsDriver.RetryStep: `errorsAllowed` is an integer or unset. The loose equality `retries == opts.errorsAllowed` against a string option value is not modelled.
- The counter argument of `getData` and `storeHits` is an integer, where `undefined` is 0.
- EsDriver.DataRequest: `end` writes only a truthy chunk and throws on a truthy chunk that is not a string. A falsy cursor other than null therefore sends the scroll request with no body, and a truthy non-string cursor is modelled as a crash with nothing sent.
- EsDriver.AllMetaCreation.Answers: the answers of `createAllMeta` are counted as a number of done events. Their interleaving with each other is not modelled. They can only arrive after the issuing loop has finished.
- Property writes on primitives (`metadata.scope = …` when the parsed reply is a string or a number) are lost, as in non-strict code. Writes to arrays are lost too, which JavaScript would keep as properties.
