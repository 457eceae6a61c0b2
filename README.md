# cryptoR price history — a Dafny model

This project models the core of cryptoR, a small Python library that
downloads historical price data for crypto-currency trading pairs from the
CryptoCompare history endpoints and shapes it into pandas DataFrames:

- `CryptoSymbol`, the value type for a trading pair such as `BTC/USD`, with
  its parser `from_string` and its formatter `to_string`;
- `symbol_price_hist`, which:
  - picks the endpoint for the requested unit and builds the query
    parameters;
  - checks each reply;
  - turns the records into a table and converts its `time` column;
  - for a list of symbols, fills a dictionary keyed by symbol string, then
    sets the index, prefixes the labels when merging, and folds the tables
    together with outer joins on the index;
- the helpers `add_prefix_to_df` and `defn` of `utils.py`.

The model has six modules, one file each:

- `Wrappers` (wrappers.dfy): `Option` and `Result`.
- `Errors` (errors.dfy): the kinds of exception the code raises.
- `Frames` (frames.dfy): an abstract DataFrame. A table has:
  - an index name, or none for the default positional index;
  - a set of row keys;
  - an ordered sequence of labelled columns, each a map from row key to cell.

  The module also holds the pandas primitives the core uses: construction
  from records, `to_datetime`, `set_index`, and the outer merge on the index.
- `Utils` (utils.dfy): `add_prefix_to_df` and `defn`.
- `CryptoSymbols` (crypto_symbol.dfy): `CryptoSymbol`.
- `DataCollect` (data_collect.dfy) holds `symbol_price_hist`.
  - The HTTP transport is a function parameter `fetch` from request to reply.
  - Every method also returns the requests it sent, in order.
  - The pure specification is the ghost function `Hist`.
  - The step-by-step methods are `SingleSymbolPriceHist`, `CollectFrames`,
    `MergeFrames` and `SymbolPriceHist`, with their loops. Each is proved to
    compute exactly what the specification says.
- `PriceHistProperties` (hist_properties.dfy): what the whole operation
  promises, stated about `Hist`.

## Model

| member | source | states |
|---|---|---|
| CryptoSymbols.Split | data_collect.py:26 | `split("/")` yields one more part than there are separators, and no part contains a separator |
| CryptoSymbols.JoinSplit | data_collect.py:26 | joining the parts of a split with the separator gives the original string back |
| CryptoSymbols.CryptoSymbol.FromString | data_collect.py:23-29 | parsing succeeds exactly when the string has one '/'; otherwise the error is the format message; both parts are free of '/' |
| CryptoSymbols.ToStringFromString | data_collect.py:23-33 | formatting a parsed symbol gives back the very string it was parsed from, so parts are kept verbatim |
| CryptoSymbols.FromStringToString | data_collect.py:26-33 | parsing a formatted symbol gives the same symbol back if and only if neither part contains '/' |
| CryptoSymbols.FromStringAccepts | data_collect.py:157-165 | the symbols used by the self-test, BTC/USD and ETH/BTC, parse into their two parts |
| CryptoSymbols.FromStringEdgeCases | data_collect.py:26-27 | "/" parses into two empty parts; "btc /usd" keeps its space and lower case |
| CryptoSymbols.FromStringRejectsNone | data_collect.py:25-29 | a string without '/' is rejected with the format message |
| CryptoSymbols.FromStringRejectsTwo | data_collect.py:25-29 | a string with two '/' is rejected with the format message |
| CryptoSymbols.FromStringAsWritten | data_collect.py:25-29 | the handler as written: accepts exactly the strings with one '/', and fails with a TypeError on the others |
| CryptoSymbols.FromStringAsWrittenLosesMessage | data_collect.py:28-29 | the code as written accepts and parses like the intended parser, but every rejection carries a different error than the format message |
| CryptoSymbols.FromStringAsWrittenExample | data_collect.py:28-29 | on "BTCUSD" the code as written raises TypeError, where the format error was intended |
| Utils.PrefixNameInjective | utils.py:14 | for a fixed prefix, `f"{prefix}_{col}"` maps different labels to different labels |
| Utils.AddPrefixToDf | utils.py:12-15 | same index, rows and number of columns; the i-th label becomes prefix + "_" + the i-th old label; every column keeps its cells |
| Utils.AddPrefixKeepsValid | utils.py:14 | renaming keeps the labels distinct, so a well-formed table stays well formed |
| Utils.Defn | utils.py:18-27 | the default when the value is None, the value otherwise |
| Utils.DefnNone | utils.py:25-27 | the result is None exactly when both arguments are None |
| Utils.DefnIdempotent | utils.py:25-27 | applying the same default twice is the same as applying it once |
| Utils.DefnAssociative | utils.py:25-27 | nested defaults pick the first present value whichever way they are nested |
| Frames.FromRecords | data_collect.py:88 | one row per record, keyed 0..n-1; one column per field, in field order; a field a record lacks is a missing cell |
| Frames.NoRecordsNoFields | data_collect.py:88 | when the fields are exactly the keys of the records, an empty list of records gives a table with no columns at all |
| Frames.ConvertTime | data_collect.py:89 | fails with KeyError exactly when the column is absent; otherwise converts that column's cells and leaves the labels, rows and other columns alone |
| Frames.ConvertTimeIdempotent | data_collect.py:100-103 | converting the time column a second time, after the conversion at line 89, changes nothing |
| Frames.SetIndex | data_collect.py:104-105 | fails with KeyError exactly when the column is absent; otherwise that column's values become the row keys and the index name, the column leaves the labels, and every other cell moves to its row's new key |
| Frames.DropWithout | data_collect.py:104-105 | among distinct labels, removing the index column by its position is the same as leaving its label out |
| Frames.OuterJoin | data_collect.py:118-120 | row keys are the union; labels are the left ones then the right ones; each column is padded with a missing value on the rows its side lacks; the index name is kept when both sides share it |
| DataCollect.UnitUrl | data_collect.py:60-66 | an endpoint exists exactly for "minute", "hour" and "day", and each of them maps to its own URL |
| DataCollect.BuildParams | data_collect.py:69-75 | fsym, tsym and limit are always present with the symbol's values; "e" is present exactly when the exchange is neither None nor "" |
| DataCollect.ReadReply | data_collect.py:79-91 | an HTTP failure gives HttpError; any "Response" other than "Success" gives "API Error: " plus the message; a successful body without "Data" gives KeyError("Data"); a successful body with records gives exactly the table built from them with its time column converted, which raises KeyError when there is no time column |
| DataCollect.ReadReplyNoRecords | data_collect.py:88-89 | a successful reply with an empty list of records has no time column, so reading it raises KeyError("time") |
| DataCollect.DefaultRequest | data_collect.py:36-75 | with the default arguments the request goes to the daily endpoint with fsym, tsym and limit 2000 and no exchange; the index is "time" and nothing is merged |
| DataCollect.SingleSymbolPriceHist | data_collect.py:58-91 | a bad unit fails before any request; otherwise exactly one request, with the unit's URL and the built parameters, is sent and its reply decides the result |
| DataCollect.Reindex | data_collect.py:124-131 | fails only for a missing index column, with KeyError; for index "" the table is returned unchanged; otherwise the table is well formed, indexed by the index column, which is no longer among the labels |
| DataCollect.ReindexTable | data_collect.py:104-105 | for a non-empty index the result is exactly `set_index` of that column: row keys are the column's values and every other column keeps its cells under them; the labels left are the fields other than the index, in order |
| DataCollect.Prepare | data_collect.py:100-111 | fails exactly when the index column is missing; otherwise a well-formed table with the query's index and, when merging, every label tagged "{symbol}_" |
| DataCollect.PrepareTable | data_collect.py:100-111 | the shaped table has the reindexed table's index, rows and cells, column by column; when merging its j-th label is "{symbol}_" plus the j-th reindexed label, so its labels are the non-index fields, in order, each prefixed |
| DataCollect.FetchPrepared | data_collect.py:97-111 | a successfully fetched and shaped table has the shape Prepare promises under its own symbol string |
| DataCollect.FetchPreparedReply | data_collect.py:97-111 | a bad unit sends nothing and fails with the unit error; otherwise the symbol's one request is sent, a failed reply is the error, and a table read from the reply is shaped exactly as Prepare shapes it |
| DataCollect.AddPrefixTagged | data_collect.py:107-111 | prefixing labels without underscores tags each label with exactly that prefix |
| DataCollect.TaggedApart | data_collect.py:109 | a label cannot carry two different symbol prefixes |
| DataCollect.FoldStops | data_collect.py:97-99 | once a symbol has failed, the symbols after it change nothing |
| DataCollect.FoldSent | data_collect.py:97-99 | the requests sent are a prefix of all per-symbol requests, and all of them when the loop succeeds, in which case every symbol succeeded |
| DataCollect.FoldOrder | data_collect.py:95-99 | the dictionary lists each distinct symbol string once, in order of first appearance, and its keys match that list |
| DataCollect.FoldKeys | data_collect.py:95-99 | the dictionary's keys are exactly the input symbol strings |
| DataCollect.FoldEntries | data_collect.py:97-111 | every table in the dictionary has the shape its loop body promises under its key |
| DataCollect.FoldValues | data_collect.py:99 | the dictionary holds each symbol's table under its string, and a repeated string keeps its last table |
| DataCollect.ValuesDistinct | data_collect.py:99 | with distinct strings every symbol's table is found under its own string |
| DataCollect.FirstOccurrencesDistinct | data_collect.py:97-99 | without repeats the order of first appearance is the input order |
| DataCollect.FoldDistinct | data_collect.py:95-99 | with distinct strings the dictionary's order is the input order and each symbol's table is under its string |
| DataCollect.FoldAllOk | data_collect.py:97-99 | when every symbol succeeds the loop succeeds, having sent every request |
| DataCollect.FoldFirstError | data_collect.py:97-99 | the first failing symbol's error is the outcome, after the requests up to and including its own |
| DataCollect.AllNamesWidth | data_collect.py:167-168 | the merged label list is as long as the sum of the tables' widths |
| DataCollect.WidthUniform | data_collect.py:167-168 | n tables of width w give n * w columns, as the self-test expects (2 * 8 = 16) |
| DataCollect.MergeAll | data_collect.py:114-120 | the left fold of outer joins is well formed, keeps the shared index name, has the union of all row keys, and has all labels table after table |
| DataCollect.MergeAllColumns | data_collect.py:114-120 | the merge is every column of every table, in input order, padded with missing values to the union of the rows |
| DataCollect.MergeAllCells | data_collect.py:118-120 | every cell of the merge is its own table's cell at that row, or a missing value where that table has no such row |
| DataCollect.PreparedMergeable | data_collect.py:107-120 | tables tagged with distinct symbol strings share no label, so the fold of outer joins is defined |
| DataCollect.CollectMergeable | data_collect.py:97-120 | after a successful loop with distinct strings, every symbol has a table and those tables can be merged |
| DataCollect.ReindexFrame | data_collect.py:125-131 | the step-by-step conversion and `set_index` compute Reindex: the unchanged table for index "", otherwise `set_index` of the index column, or KeyError when it is missing |
| DataCollect.ShapeFrame | data_collect.py:100-111 | the step-by-step loop body computes Prepare: the reindexed table, with every label renamed "{symbol}_{label}" and its cells kept when merging |
| DataCollect.FetchFrame | data_collect.py:97-111 | fetching and shaping one symbol computes FetchPrepared, requests included: the symbol's one request, then its reply read and shaped by Prepare |
| DataCollect.CollectFrames | data_collect.py:95-111 | the first loop computes the dictionary and the requests of the fold over the symbols |
| DataCollect.MergeFrames | data_collect.py:114-120 | the second loop computes the left fold of outer joins, starting from the first symbol's table |
| DataCollect.SymbolPriceHist | data_collect.py:36-132 | the whole function, step by step, computes Hist, requests included |
| PriceHistProperties.AllSentRuns | data_collect.py:97-99 | the per-symbol runs together send one request per symbol, in input order, or none for a bad unit |
| PriceHistProperties.HistBadUnit | data_collect.py:60-66 | an unrecognised unit sends nothing, and fails with the unit error for one symbol or a non-empty list |
| PriceHistProperties.HistRequests | data_collect.py:69-78 | one symbol: its one request; a list: a prefix of the per-symbol requests in input order, all of them on success |
| PriceHistProperties.HistFirstError | data_collect.py:97-99 | the first failing symbol's error ends the call, and no symbol after it is requested |
| PriceHistProperties.CollectFirstError | data_collect.py:97-99 | the first loop ends with the first failing symbol's error, having sent the requests of the symbols up to and including it |
| PriceHistProperties.HistReplyError | data_collect.py:78-85 | for one symbol, a failed reply (HTTP status, API error, no data) is the call's error and no table is produced |
| PriceHistProperties.HistEmpty | data_collect.py:114-122 | an empty list sends nothing: an empty dictionary without merging, an IndexError from `symbol[0]` with merging |
| PriceHistProperties.HistSingle | data_collect.py:124-131 | one symbol, whatever `merge` says: success exactly when the index is "" or an existing column; the table is the reply's table for index "", and otherwise exactly `set_index` of the index column on it |
| PriceHistProperties.HistByName | data_collect.py:95-122 | without merging: keys in order of first appearance, the last table for a repeated string, every entry shaped with the query's index, and every symbol succeeded |
| PriceHistProperties.HistByNameDistinct | data_collect.py:95-122 | without merging and with distinct symbols: the keys are the symbol strings in input order, each with its own symbol's table |
| PriceHistProperties.CollectShaped | data_collect.py:97-111 | with distinct symbols, a successful loop stores every symbol's shaped table under its string |
| PriceHistProperties.ShapedLabels | data_collect.py:107-111 | when merging, each symbol's labels are the fields of its reply other than the index, in order, each renamed "{symbol}_{field}"; so every label carries its symbol's prefix |
| PriceHistProperties.FetchPreparedLabels | data_collect.py:99-111 | when merging, one symbol's shaped labels are its reply's non-index fields, in order, each prefixed with the symbol string |
| PriceHistProperties.HistMerged | data_collect.py:107-120 | with merging: the result is well formed with the query's index; its rows are the union; its columns are every symbol's shaped columns in input order, padded with missing values; each symbol contributes its reply's non-index fields renamed "{symbol}_{field}"; its width is the sum of widths |

## Left out

- The HTTP transport (`requests.get`, `raise_for_status`, `response.json()`) is not modelled. It is a parameter `fetch` from request to reply. A reply is either an HTTP error status or a decoded body.
- JSON decoding is not modelled. A body is modelled by its "Response" and "Message" fields and the records under "Data"/"Data". A missing "Data" at either level is one case, which raises KeyError("Data").
- Pandas internals are not modelled:
  - Row order is left out, because row keys are a set. pandas sorts the keys of an outer join; the model does not.
  - The dtypes of columns are left out.
  - Floating point is left out.
  - `to_datetime` is modelled as epoch seconds becoming a timestamp; a cell that is already a timestamp is left as it is.
- Several pandas quirks are preconditions, stated by `Fits`, `FitsFor` and `MergeReady`:
  - `set_index` on a column with repeated values, which gives duplicate index labels, is excluded.
  - When merging, repeated symbol strings are excluded. pandas would suffix the shared labels with `_x`/`_y`.
  - When merging a list, a field label containing '_' is excluded. This is stronger than pandas needs. Prefixed labels clash only when one symbol string equals another followed by "_" and more, e.g. "BTC/USD_X" next to "BTC/USD". The simplification makes the prefix identify its symbol, which the proof of the merge uses.
  - A single symbol ignores `merge`, so its replies are not required to be free of '_'.
  - Merging with `index == ""` is modelled: the join is then on the positional keys.
- The order of a reply's fields is taken from the reply. `RecordsFit` assumes the fields are exactly the keys of its records. A record is an unordered map, so the model cannot state that pandas orders them by first appearance.
- The `isinstance(symbol, Iterable)` dispatch is the tagged union `Symbols`: one symbol, or a sequence of them.
- Exceptions are modelled as `Err` results. Stack unwinding and exception types beyond the kinds in `Errors` are not modelled.
- In-place updates are modelled as reassignment of a local value:
  - the table updates `set_index(..., inplace=True)`, `rename(..., inplace=True)` and `df[...] = ...`;
  - the dictionary update `data[sym_str] = ...`.
  - Each per-symbol table is a fresh object that nothing else refers to, so no aliasing is lost.
- The self-test harness `_vprint`, `test` and `TestError` is not modelled. It is a test scaffold that prints and calls the live service. Only its expected column count is stated, by WidthUniform.

## Findings

| source | as written | input that shows it | evidently intended | confidence | as-written member | corrected member |
|---|---|---|---|---|---|---|
| data_collect.py:28-29 | the handler calls the caught ValueError instance, `e("...")`, which raises TypeError "'ValueError' object is not callable" | "BTCUSD" (no '/') or "BTC/USD/EXTRA" (two) | raise a ValueError carrying the message "String format must be 'SYMBOL/PAIR', e.g. 'BTC/USD'" | high; not executed | CryptoSymbols.FromStringAsWritten, CryptoSymbols.FromStringAsWrittenExample | CryptoSymbols.CryptoSymbol.FromString |
