# X12 850 purchase-order ingestion, modelled in Dafny

The system ingests ASC X12 850 purchase orders from an FTP directory. It has
two generations of code, and this project models the core of both.

- **The raw-text parser** `OrderDogParser` (parser.ts). It splits the text
  into lines at runs of CR/LF, trims them and drops blank ones. It strips one
  trailing `~` from each line and splits it on `*`; the first token is the
  segment tag. The segments are then folded into a `PurchaseOrder`:
  - ISA06/ISA08 give the sender and receiver;
  - BEG03/BEG05 give the PO number and the date, which must be eight digits;
  - N1 with BT or ST gives the bill-to or ship-to party;
  - each PO1 pushes a line item;
  - CTT01 gives the total.
- **The class-based watcher** `WatcherService` (watcher.ts).
  - Its poll loop lists the directory and skips names already in
    `processedFiles` or starting with `_`. Each other file is downloaded,
    parsed, stored under `['orders', poNumber]` and renamed to `_` + name.
  - A name is recorded only when every step succeeded.
  - A failed listing costs one reconnect attempt.
- **The normaliser** `normalize` (src/normalize.ts) and its helper
  `toLowerCaseKeys` (src/lib/edination/utils.ts). They turn the JSON
  interchanges of the EDI reading service into a normalized purchase order.
  The order is taken from the first 850 transaction of the first group of
  the first interchange.
- **The closure-based watcher** `createWatcher` (src/watcher.ts).
  - It skips hidden names (`.` or `_`).
  - `processEDIFile` runs the service pipeline parse → validate → createAck →
    saveOrder → saveFile(850) → saveFile(997).
  - When an order was saved, the watcher dispatches it. `uploadAckFile` then
    uploads `997_` + name from `/IN` and renames the original to `_` + name
    in `/OUT`.

## How the model is built

In the sample line `PO1*1*10*EA*5.00***UP*SKU1~`, element 6 is the qualifier `UP` and element 7 is the id `SKU1`. `parseEDI` reads the product id from element 6 (parser.ts:59), so `SampleOrder` proves product id `UP`.

- The pure parts are datatypes, functions and lemmas:
  - the lexer, the fold, `normalize` and `toLowerCaseKeys`;
  - the JavaScript string built-ins they use (`trim`, `split`,
    `split(/[\r\n]+/)`, `toLowerCase`), in `js_string.dfy`;
  - the parts of JSON property access they rely on (`v.key`, `v?.key`,
    `v?.[0]`, truthiness, `||`), in `json.dfy`.
- `parseEDI` is a method with a `for` loop. Its result is proved equal to
  `Parse`, the fold of the segments.
- Both watchers are classes. Their fields are those the source mutates:
  - `processedFiles` and `isRunning` in watcher.ts;
  - `isRunning` and the FTP session's working directory in src/watcher.ts.
- Every method is proved against a function of the old state and the
  collaborators' answers (`Run`, `LoopRun`, `PollRun`, `FileRun`).
- The properties are proved as lemmas about those functions.
- The FTP server, the file system, the key-value store, the EDI web
  services and the database are not modelled. What each call answers is a
  parameter (`FileOutcome`, `Cycle`, `EdiServices`, `UploadServices`,
  `Poll`). Every call is recorded in a ghost `calls` trace, so the
  properties speak of which calls happen, in which order, with which names.
- The endless poll loops run over a finite script of cycles whose last cycle
  calls `stop`.

## Model

| member | source | states |
|---|---|---|
| JsString.Trim | parser.ts:76 | `trim` returns a contiguous piece of its input with no white space at either end, and everything it cut was white space |
| JsString.TrimOfTrimmed | parser.ts:76 | `trim` leaves a string without surrounding white space unchanged |
| JsString.Split | parser.ts:83 | `split('*')` gives at least one piece, no piece contains the separator, and joining the pieces with it gives back the input |
| JsString.SplitOfJoin | parser.ts:83 | splitting undoes joining for separator-free pieces |
| JsString.SplitLines | parser.ts:75 | `split(/[\r\n]+/)` gives at least one piece, no piece contains CR or LF, and only the first and last piece can be empty; `SplitLinesRebuilds` and `SplitLinesUnique` characterise the pieces exactly |
| JsString.SplitLinesOfJoin | parser.ts:75 | splitting on line-break runs undoes joining with `\n` for break-free pieces whose inner pieces are non-empty |
| JsString.SplitLinesRebuilds | parser.ts:75 | the pieces, put back together with a non-empty run of CR/LF characters between each two, rebuild the input |
| JsString.SplitLinesUnique | parser.ts:75 | the pieces are the only such decomposition: break-free pieces, all but the first and last non-empty, that rebuild the input with CR/LF runs between them are exactly what `split(/[\r\n]+/)` returns, so each run between two pieces is maximal |
| JsString.ToLowerCase | src/lib/edination/utils.ts:6 | `toLowerCase` keeps the length, lowers every letter and touches nothing else |
| JsString.ToLowerCaseOfLower | src/lib/edination/utils.ts:6 | lowering a lower-case string changes nothing |
| OrderDogParser.Element | parser.ts:30-31 | `elements[i]` is defined exactly when `i` is in range, and is then that element |
| OrderDogParser.StripTerminator | parser.ts:80-82 | a line ending with the terminator loses exactly that one character; any other line is unchanged |
| OrderDogParser.ToSegment | parser.ts:79-85 | tag and elements joined back with `*` give the line minus at most one terminator, and no token holds a `*` |
| OrderDogParser.NonBlank | parser.ts:76-77 | the trimmed, non-blank lines are non-empty and trimmed, and there are no more of them than input lines; `NonBlankPicks` says which lines they are |
| OrderDogParser.NonBlankPicks | parser.ts:76-77 | there is a strictly increasing choice of line indices such that the result is the trimmed lines at those indices, in input order, and every line not chosen trims to the empty string |
| OrderDogParser.NonBlankNoLineBreak | parser.ts:75-77 | trimming and dropping blank lines introduces no line break |
| OrderDogParser.ParseSegments | parser.ts:73-86 | one segment per non-blank trimmed line, in line order, each rejoining to its line minus at most one terminator; `UnlexLex` shows that written-out segments lex back to themselves |
| OrderDogParser.WrittenLine | parser.ts:76-85 | a segment with no `*` or line break in any token and no leading white space, written as tag and elements joined by `*` plus `~`, is a non-empty trimmed line that lexes back to that segment |
| OrderDogParser.UnlexLex | parser.ts:73-86 | such segments, written one per line, lex back to exactly those segments, in order |
| OrderDogParser.LexedWritable | parser.ts:79-85 | every segment the lexer makes from a non-blank trimmed line is of that writable kind |
| OrderDogParser.LexUnlexLex | parser.ts:73-86 | lexing the lexer's own output, written back one terminated segment per line, gives the same segments |
| OrderDogParser.OneTerminatorStripped | parser.ts:80-82 | only one terminator is stripped: a line ending in `~~` keeps one `~` in its last token |
| OrderDogParser.ItemOf | parser.ts:53-61 | a PO1 gives elements 0, 1, 2, 3 and 6 as line number, quantity, unit, price and product id (`Po1ItemsOnePerSegment`, `SampleOrder`) |
| OrderDogParser.Apply | parser.ts:28-67 | one `switch` case; `ApplyByKind` states which fields each tag changes and `RejectsIffBadDate` when it throws |
| OrderDogParser.Build | parser.ts:27-68 | the `for` loop over the segments, stopping at the first throw; `BuildIsSummary`, `BuildAppend`, `BuiltOrderInvariant` and `IgnoredSegmentsChangeNothing` state its properties |
| OrderDogParser.Parse | parser.ts:9-70 | `parseEDI`: empty content is rejected, anything else is lexed and folded; `InvalidContentIffEmpty`, `DateRejection`, `ParsedOrderInvariant` and `SampleOrder` state its properties |
| OrderDogParser.ValidateSegments | parser.ts:88-127 | `validateSegments` accepts every segment sequence |
| OrderDogParser.ParseEDI | parser.ts:9-71 | the field-by-field loop over the segments resolves or rejects exactly as the fold `Parse` does |
| ParserProperties.InvalidContentIffEmpty | parser.ts:10-12 | "Invalid EDI content provided." is thrown exactly for empty content |
| ParserProperties.BuildNeverInvalidContent | parser.ts:27-68 | the segment fold never raises the empty-content error |
| ParserProperties.RejectsIffBadDate | parser.ts:34-39 | the fold fails exactly when some BEG has an element 4 that is missing or not eight digits, and the error carries the first such date |
| ParserProperties.DateRejection | parser.ts:14-39 | non-empty content is rejected exactly when one of its lexed BEG segments has a bad date |
| ParserProperties.ApplyByKind | parser.ts:28-67 | ISA sets only sender and receiver (trimmed), BEG only PO number and date, N1 BT only bill-to, N1 ST only ship-to, PO1 only appends its item, CTT only the total, anything else nothing |
| ParserProperties.BuildIsSummary | parser.ts:27-68 | last wins: a successful fold equals the summary taken from the last ISA, BEG, N1 BT, N1 ST and CTT, with all PO1 items appended in order |
| ParserProperties.Po1ItemsOnePerSegment | parser.ts:53-61 | there is one item per PO1 segment, and the k-th PO1 segment gives the k-th item |
| ParserProperties.ParsedOrderInvariant | parser.ts:19-70 | a parsed order has a PO number, its date is the initial empty text or eight digits, and its items are those of the PO1 segments, one each |
| ParserProperties.BuiltOrderInvariant | parser.ts:19-68 | the same facts about a successful fold from the initial order, for any segments |
| ParserProperties.IgnoredSegmentsChangeNothing | parser.ts:27-67 | dropping segments of unrecognised tags (and N1 with another qualifier) does not change the result |
| ParserProperties.BuildAppend | parser.ts:27-68 | folding a concatenation folds the second part from where the first ended, or keeps the first failure |
| ParserProperties.TotalNotCheckedAgainstItems | parser.ts:63-65 | a trailing CTT sets the total to its count text, whatever the number of items |
| ParserProperties.SampleOrder | parser.ts:9-86 | the five-line sample text (ISA, BEG, N1 BT, PO1, CTT) parses to sender SENDER, receiver RECEIVER, PO number PO123, date 20240115, bill-to Acme/CUST1, total `parseInt("1")` and one item whose product id is `UP`, because `PO1*1*10*EA*5.00***UP*SKU1~` puts `SKU1` at element 7; with `UP` and `SKU1` at elements 5 and 6 the product id is `SKU1` |
| Json.Lookup | src/normalize.ts:54-60 | a member lookup finds `undefined` exactly when the key is absent, and otherwise a value stored under that key |
| Json.Get | src/normalize.ts:54-60 | `v.key` throws exactly when `v` is `null` or `undefined` |
| Json.Or | src/normalize.ts:30 | `a \|\| b` is `a` when `a` is truthy and `b` otherwise |
| EdinationUtils.ToLowerCaseKeys | src/lib/edination/utils.ts:1-12 | arrays element by element, objects key by key through the `reduce`, anything else unchanged; `ObjectKeys`, `ObjectMembers`, `LaterKeyWins`, `NoUpperCaseKeyLeft` and `Idempotent` state its properties |
| EdinationUtils.Assign | src/lib/edination/utils.ts:7 | `acc[key] = value`; `AssignLookup`, `AssignOther` and `AssignKeys` state its properties |
| EdinationUtils.Reduce | src/lib/edination/utils.ts:5-9 | the `reduce` assigning each lowered member in key order; `ReduceKeys` and `ReduceLookup` state its properties |
| EdinationUtils.LastKeyIndex | src/lib/edination/utils.ts:5-9 | the index of the last member with a key, or -1 when there is none |
| EdinationUtils.AssignLookup | src/lib/edination/utils.ts:7 | after `acc[key] = value` the key holds that value |
| EdinationUtils.AssignOther | src/lib/edination/utils.ts:7 | `acc[key] = value` leaves every other key as it was |
| EdinationUtils.AssignKeys | src/lib/edination/utils.ts:7 | an assignment keeps existing keys in place and appends a new key at the end |
| EdinationUtils.ReduceKeys | src/lib/edination/utils.ts:5-9 | the reduce ends with the keys it started with plus those it assigned, kept distinct |
| EdinationUtils.ReduceLookup | src/lib/edination/utils.ts:5-9 | after the reduce a key holds the value of the last pair assigned to it |
| EdinationUtils.PrimitivesUnchanged | src/lib/edination/utils.ts:4-11 | `null`, booleans, numbers and strings come back unchanged |
| EdinationUtils.ArraysMapElementwise | src/lib/edination/utils.ts:2-3 | an array maps to an array of the same length whose elements are the transformed elements |
| EdinationUtils.ObjectKeysDistinct | src/lib/edination/utils.ts:5-9 | a transformed object has distinct keys |
| EdinationUtils.ObjectKeys | src/lib/edination/utils.ts:5-9 | a transformed object's keys are exactly the lowered input keys |
| EdinationUtils.ObjectMembers | src/lib/edination/utils.ts:5-9 | every member of a transformed object is an input member with its key lowered and its value transformed |
| EdinationUtils.ObjectKeysLower | src/lib/edination/utils.ts:6 | every key of a transformed object is lower-case |
| EdinationUtils.LaterKeyWins | src/lib/edination/utils.ts:5-9 | when several keys lower alike, the value kept is that of the last of them in key order |
| EdinationUtils.NoUpperCaseKeyLeft | src/lib/edination/utils.ts:1-12 | no upper-case key is left at any depth |
| EdinationUtils.Idempotent | src/lib/edination/utils.ts:1-12 | transforming twice is transforming once |
| Normalize.Normalize | src/normalize.ts:4-75 | `normalize`; `InputChecks`, `NoGroupIff`, `No850Iff`, `UsesFirst850`, `OnlyFirstInterchangeRead`, `KeyCaseIrrelevant` and `SuccessNeedsEnvelope` state its properties |
| Normalize.FromGroup | src/normalize.ts:21-27 | the search for the first 850 transaction; `No850Iff` and `UsesFirst850` state its properties |
| Normalize.FromTransaction | src/normalize.ts:29-74 | the order built from the transaction; `PartiesFromFirstMatch`, `ItemsFollowPo1Loop`, `MissingPo1Throws`, `HeaderFromEnvelope` and `FromTransactionNeverNo850` state its properties |
| Normalize.HeaderOf | src/normalize.ts:52-61 | the seven header fields; `HeaderFromEnvelope` and `SuccessNeedsEnvelope` state its properties |
| Normalize.PartyOf | src/normalize.ts:62-69 | a party's name and customer id with `''` as fallback; `PartyFieldsDefault` states its property |
| Normalize.FindOn | src/normalize.ts:21-40 | `v.find(cb)`, throwing on a non-array; `Find`, `FindFirst` and `PartiesFromFirstMatch` state its properties |
| Normalize.MapOn | src/normalize.ts:43-49 | `v.map(...)`, throwing on a non-array; `MapItems` and `ItemsFollowPo1Loop` state its properties |
| Normalize.ItemOf | src/normalize.ts:44-48 | one item from `po1Item.po1`; `MissingPo1Throws` and `ItemsFollowPo1Loop` state its properties |
| Normalize.Find | src/normalize.ts:21-23 | `find` gives `undefined` exactly when the callback rejects every element; otherwise it gives the first accepted element, or throws the callback's exception, with every earlier element rejected |
| Normalize.MapItems | src/normalize.ts:43-49 | `map` succeeds exactly when every element converts, and then gives one item per element, in order |
| Normalize.InputChecks | src/normalize.ts:5-11 | only a non-array input returns `undefined`, and only the empty array throws "No X12 interchange data provided." |
| Normalize.FromGroupNeverInputError | src/normalize.ts:21-74 | once a group is found, none of the input and group errors can arise |
| Normalize.NoGroupIff | src/normalize.ts:14-19 | "No functional groups" is thrown exactly when the first interchange is not `null` and its `groups?.[0]` is falsy |
| Normalize.OnlyFirstInterchangeRead | src/normalize.ts:14 | the interchanges after the first do not affect the result |
| Normalize.UsesFirstGroup | src/normalize.ts:13-27 | when the lowered first interchange's `groups` starts with a truthy group, `normalize` is the 850 search of that group, whatever groups follow it |
| Normalize.KeyCaseIrrelevant | src/normalize.ts:13 | lower-casing the input's keys first does not change the result, so the lookups are case-insensitive |
| Normalize.AcceptedIsObject | src/normalize.ts:21-40 | an element a callback accepts is an object, hence truthy |
| Normalize.FindFirst | src/normalize.ts:21-23 | `find` returns the first accepted element when no earlier callback throws |
| Normalize.No850Iff | src/normalize.ts:21-27 | "No 850 Purchase Order transaction found." is thrown exactly when there are no transactions or every set code differs from "850" |
| Normalize.FromTransactionNeverNo850 | src/normalize.ts:29-74 | building from a found transaction never raises the no-850 error |
| Normalize.UsesFirst850 | src/normalize.ts:21-27 | the order is built from the first transaction whose set code is "850" |
| Normalize.PartiesFromFirstMatch | src/normalize.ts:30-40 | bill-to is the first N1 loop entry with code BY or BT and ship-to the first with ST; with none, both fields are `''` |
| Normalize.PartyFieldsDefault | src/normalize.ts:62-69 | a party's name and customer id are truthy values or `''` |
| Normalize.ItemsFollowPo1Loop | src/normalize.ts:43-49 | the items follow the PO1 loop one for one and in order, a missing loop gives none, and the total is their count |
| Normalize.MissingPo1Throws | src/normalize.ts:43-44 | a PO1 loop entry without `po1` makes `normalize` throw a TypeError |
| Normalize.SuccessNeedsEnvelope | src/normalize.ts:53-61 | a normalized order needs the group's GS, the interchange's ISA, and the transaction's BEG and ST |
| Normalize.HeaderFromEnvelope | src/normalize.ts:53-61 | the header is GS02, ISA05, GS03, ISA07, BEG03, ST02 and BEG05 |
| Normalize.PathNeedsParent | src/normalize.ts:54-60 | `v.k1.k2` reads without an exception only when `v.k1` is neither `null` nor `undefined`, and then gives `v?.k1?.k2` |
| FtpWatcher.WatcherService.constructor | watcher.ts:13-19 | a new watcher has no processed files and is not running |
| FtpWatcher.WatcherService.Connect | watcher.ts:21-36 | `connect` calls `access` with the configured host, port, user and password, then `cd` to the directory only if `access` succeeded, and succeeds only if both do |
| FtpWatcher.WatcherService.ProcessFile | watcher.ts:71-103 | the name is added to `processedFiles` exactly when download, parse, `kv.set` and rename all succeed; the calls are the download, then the store and rename steps up to the first failure |
| FtpWatcher.WatcherService.ParseAndStore | watcher.ts:80-92 | after the download: parse, then store and rename only a parsed order |
| FtpWatcher.WatcherService.StoreParsed | watcher.ts:86-92 | a parsed order is stored under its PO number, the file is renamed only after the store succeeded, and the name is recorded only after the rename succeeded |
| FtpWatcher.WatcherService.Start | watcher.ts:38-69 | the loop's state and calls are those of `Run` over the script, and it ends not running |
| FtpWatcher.WatcherService.Stop | watcher.ts:105-108 | `stop` clears `isRunning` and closes the connection, changing nothing else |
| FtpWatcher.FileCalls | watcher.ts:71-103 | the calls `processFile` makes up to the first failure; `FileCallsShape` states their shape |
| FtpWatcher.AfterFile | watcher.ts:71-103 | the state after `processFile`; `ProcessFile`'s contract and `VisitShape` state its properties |
| FtpWatcher.Visit | watcher.ts:48-53 | one turn of the `for` loop; `VisitShape` states its properties |
| FtpWatcher.ListingRun | watcher.ts:47-54 | the `for` loop over a listing; `ListingRunGrows`, `ListingSkipsSkipped`, `ListingRecordsOnlySuccess` and `ListingDownloadsInOrder` state its properties |
| FtpWatcher.CycleRun | watcher.ts:41-67 | one turn of the `while` loop: list, then the listing or one reconnect; `CycleCounts` states its properties |
| FtpWatcher.Run | watcher.ts:38-69 | the `while` loop over a script ending with `stop` during the wait; `RunGrows`, `SkippedNeverDownloaded`, `RecordsOnlySuccess` and `PollsAndReconnects` state its properties |
| FtpWatcherProperties.FileCallsShape | watcher.ts:71-92 | `processFile` first downloads its own file and makes only download, store and rename calls; on success the calls are exactly download, store under the PO number, and rename to `_` + name |
| FtpWatcherProperties.ParsedCallsShape | watcher.ts:81-89 | after a parse, the calls are nothing on failure, and otherwise the store of that order, then the rename if the store succeeded |
| FtpWatcherProperties.VisitShape | watcher.ts:47-54 | one loop turn only adds its own name, downloads nothing when the name is skipped and that file otherwise, and records the name only on full success |
| FtpWatcherProperties.ListingRunGrows | watcher.ts:47-54 | within a listing `processedFiles` only grows |
| FtpWatcherProperties.RunGrows | watcher.ts:38-69 | over the whole loop `processedFiles` only grows |
| FtpWatcherProperties.ListingSkipsSkipped | watcher.ts:47-51 | a name already processed or starting with `_` is never downloaded in a listing |
| FtpWatcherProperties.SkippedNeverDownloaded | watcher.ts:47-51 | the same over the whole poll loop |
| FtpWatcherProperties.ListingRecordsOnlySuccess | watcher.ts:86-92 | a name newly recorded during a listing does not start with `_`, succeeded in every step, and was renamed |
| FtpWatcherProperties.RecordsOnlySuccess | watcher.ts:86-92 | a name newly recorded by the loop succeeded in some cycle, does not start with `_`, and was renamed to `_` + name |
| FtpWatcherProperties.ListingDownloadsInOrder | watcher.ts:44-54 | with distinct names none of which is skipped, every listed file is downloaded exactly once, in listing order, whatever each one meets |
| FtpWatcherProperties.CycleCounts | watcher.ts:42-67 | one poll lists once, attempts one reconnect exactly when listing failed, and never closes |
| FtpWatcherProperties.PollsAndReconnects | watcher.ts:38-69 | with `stop` arriving during the wait after a cycle, the loop lists once per cycle up to and including that one, reconnects once per failed listing, and closes once exactly when stopped |
| FtpWatcherProperties.RunLists | watcher.ts:40-44 | the loop lists once per cycle up to and including the one in which `stop` is called |
| FtpWatcherProperties.RunReconnects | watcher.ts:58-67 | the loop attempts one reconnect per failed listing before the stop |
| FtpWatcherProperties.RunCloses | watcher.ts:105-108 | with `stop` arriving during the wait after a cycle, the loop closes the connection once when it is stopped, and never otherwise |
| FtpWatcherProperties.ListingOnlyFileCalls | watcher.ts:47-54 | the `for` loop over a listing makes only download, store and rename calls |
| FtpWatcherProperties.StoppedRunEndsWithClose | watcher.ts:105-108 | with `stop` arriving during the wait after a cycle, a stopped loop's last call is the close |
| SrcWatcher.ProcessEdiFile | src/watcher.ts:110-152 | `processEDIFile`; `StagesFollowPipeline`, `ResultIffAllSucceed` and `EarlyReturnSavesNothing` state its properties |
| SrcWatcher.UploadAck | src/watcher.ts:44-79 | `uploadAckFile`; `UploadNames`, `UploadCompletes`, `TryFailuresSwallowed` and `RemoveFailureLeavesIn` state its properties |
| SrcWatcher.FileRun | src/watcher.ts:176-195 | one turn of the `for` loop of `processFiles`; `FileGating`, `FileDownloads` and `FileRunNoPollCalls` state its properties |
| SrcWatcher.ListingRun | src/watcher.ts:170-196 | the `for` loop, ended by the first throw; `ListingRunSplit`, `ListingRunThrown`, `DownloadFailureAbortsPoll` and `ListingSkipsHidden` state its properties |
| SrcWatcher.PollRun | src/watcher.ts:167-197 | `processFiles`; `PollShape` states its properties |
| SrcWatcher.LoopRun | src/watcher.ts:205-218 | the `while` loop of `start`, then `disconnect`; `LoopPolls` states its properties |
| SrcWatcherProperties.StagesFollowPipeline | src/watcher.ts:118-143 | `processEDIFile` invokes between one and six stages, always starting with parse, and they are a prefix of parse → validate → createAck → saveOrder → saveFile(content, name, 850) → saveFile(ack, `997_` + name, 997) |
| SrcWatcherProperties.ResultIffAllSucceed | src/watcher.ts:118-151 | a result comes back exactly when every stage resolves, parse gives an order and validation says valid; it then holds the acknowledgment and the saved order |
| SrcWatcherProperties.EarlyReturnSavesNothing | src/watcher.ts:120-130 | without an order, or when validation is not valid or rejects, no acknowledgment is created and nothing is saved |
| SrcWatcherProperties.UploadNames | src/watcher.ts:60-77 | only `997_` + name is written and uploaded, and only the original is renamed, to `_` + name |
| SrcWatcherProperties.UploadCompletes | src/watcher.ts:64-78 | once the temp directory exists the `finally` block runs; `uploadAckFile` returns normally exactly when the temp directory, removal, `cd /OUT` and rename all succeed, and then it ends in `/OUT` with the rename done |
| SrcWatcherProperties.TryFailuresSwallowed | src/watcher.ts:64-73 | failures of the write, `cd /IN`, upload and `pwd` change neither whether the function throws nor, after a good `finally`, the final directory |
| SrcWatcherProperties.RemoveFailureLeavesIn | src/watcher.ts:74-78 | if the temp directory cannot be removed after a successful `cd /IN`, the function throws, stays in `/IN` and renames nothing |
| SrcWatcherProperties.FileGating | src/watcher.ts:176-195 | a file's turn starts with its download; dispatch happens exactly when an order was saved; with no order there is neither upload nor rename; only a failed download or the upload can throw |
| SrcWatcherProperties.FileDownloads | src/watcher.ts:177 | a file's turn downloads only that file |
| SrcWatcherProperties.ListingRunSplit | src/watcher.ts:170-196 | running two listings one after the other is running their concatenation |
| SrcWatcherProperties.ListingRunThrown | src/watcher.ts:170-196 | once a file has thrown, the rest of the listing does nothing |
| SrcWatcherProperties.DownloadFailureAbortsPoll | src/watcher.ts:170-196 | a failed download ends the poll there: later files are not touched, and the poll is reported as thrown |
| SrcWatcherProperties.ListingSkipsHidden | src/watcher.ts:170-174 | a name starting with `.` or `_` is never downloaded during a listing |
| SrcWatcherProperties.PollShape | src/watcher.ts:167-197 | one poll lists the working directory once, first, never closes, and downloads no hidden name |
| SrcWatcherProperties.FileRunNoPollCalls | src/watcher.ts:176-195 | a file's turn makes no listing and no close call |
| SrcWatcherProperties.ListingOnlyFileCalls | src/watcher.ts:170-196 | the `for` loop makes no listing and no close call |
| SrcWatcherProperties.LoopPolls | src/watcher.ts:199-219 | the loop lists once per poll up to and including the one in which `stop` is called, never downloads a hidden name, and ends with `disconnect` |
| SrcWatcher.Watcher.constructor | src/watcher.ts:163-165 | a new watcher is not running |
| SrcWatcher.Watcher.ProcessListedFile | src/watcher.ts:176-195 | one turn of the `for` loop appends the calls of `FileRun`, and its throw and working directory are `FileRun`'s |
| SrcWatcher.Watcher.ProcessFiles | src/watcher.ts:167-197 | `processFiles` makes the calls of `PollRun` and throws when it does |
| SrcWatcher.Watcher.Start | src/watcher.ts:199-219 | a failed connect rejects with the flag still set and nothing listed; otherwise the calls are those of `LoopRun` from the configured directory, and the loop ends not running |
| SrcWatcher.Watcher.Stop | src/watcher.ts:221-223 | `stop` only clears the flag: it neither closes the connection nor changes the calls |

## Left out

- Floating point: `parseFloat` and `parseInt` (parser.ts:56-58, 64; src/normalize.ts:45-47). The model keeps the text or JSON value they are applied to. `NaN` and numeric results are not modelled.
- Unicode: `trim` uses JavaScript's white-space set. `toLowerCase` and the `\d` of the date check are restricted to ASCII.
- `parseEDI`'s `typeof content !== 'string'` test is not modelled: the input is always a string.
- The commented-out segment-order check in `validateSegments` is not modelled, since it is dead code.
- JavaScript objects are ordered member lists. The rule that integer-like keys are enumerated first is not modelled, and neither is the `__proto__` key.
- Timing is not modelled: `setTimeout`, the poll interval, `WATCHER_INTERVAL` and concurrency. A `stop` call is a flag on the poll during which it arrives, so the loops run over finite scripts whose last cycle stops.
- Logging (`console.*`) is not modelled. Neither is the error value that `connect` rethrows; only whether it succeeded is kept.
- The FTP client, the local file system (temp files, read, write, remove), the key-value store and the database are not modelled. Their answers are parameters and their calls are recorded in the trace.
- In watcher.ts, `makeTempFile`, `downloadTo` and `readTextFile` are one download step, and the final `Deno.remove(tmpPath)` is left out: it runs after the name was recorded, and its failure is swallowed, so it changes nothing the model tracks.
- In src/watcher.ts, `downloadFile` is one download step.
- The EDI web services of src/useEDI.ts are outcomes: `parse` gives an optional order, `validate` a boolean, `createAck` a text. The `json[0]` passed to `validate` and `createAck` is not modelled.
- The Blob and `arrayBuffer` conversions are not modelled.
- `dispatchToFlowSync` catches everything it raises, so it is a recorded call that never throws. The fetch and its response are not modelled.
- `saveFile` (src/lib/supabase/actions.ts:32-43) returns `undefined` when the storage upload reports an error, and rejects only if the upload call itself rejects. The model keeps just "rejects or not" for the 850 and 997 saves, and its lemmas hold for both. An error the upload reports and `saveFile` turns into `undefined` is a non-rejecting save.
- The `kv` parameter of `processEDIFile` is not used by the code, so it is not modelled.
- The `DocumentStatus` lifecycle of types.ts is not modelled, since no code performs it.
- main.ts and the supabase client set-up are not modelled.
- FtpWatcherProperties.RunCloses, FtpWatcherProperties.StoppedRunEndsWithClose and FtpWatcherProperties.PollsAndReconnects take `stop` to arrive during the wait after a cycle, so its `close` follows the cycle. `stop` can also close the connection while `list()` or a file is in progress (watcher.ts:44, 105-108). The `catch` then reconnects (watcher.ts:58-67), and the loop ends with a live connection, its last call being `cd`. That interleaving is not modelled.
- `createFTPClient().disconnect` is recorded as the `Close` call. It is the only use of the client object outside `connect`.
