/** `symbol_price_hist`: fetch the price history of one or several trading
    symbols from the CryptoCompare history endpoints and shape it into
    tables. The HTTP transport is a parameter `fetch`, and every method
    reports the requests it issued, in order. */
module DataCollect {
  import opened Wrappers
  import opened Errors
  import opened Frames
  import opened Utils
  import opened CryptoSymbols

  const MinuteUrl := "https://min-api.cryptocompare.com/data/v2/histominute"
  const HourUrl := "https://min-api.cryptocompare.com/data/v2/histohour"
  const DayUrl := "https://min-api.cryptocompare.com/data/v2/histoday"
  const UnitMessage := "Invalid unit provided. Select from 'minute', 'hour' or 'day'."
  const TimeColumn := "time"
  const SuccessMarker := "Success"

  /** The keyword arguments of `symbol_price_hist`. */
  datatype Query = Query(limit: int, exchange: Option<string>, unit: string, merge: bool, index: string)

  /** limit=2000, exchange=None, unit="day", merge=False, index="time". */
  const Defaults := Query(2000, None, "day", false, "time")

  /** A query parameter: a string or an integer. */
  datatype Param = StrParam(s: string) | IntParam(n: int)

  /** A GET request: the endpoint and its query parameters. */
  datatype Request = Request(url: string, params: map<string, Param>)

  /** The decoded JSON body: its "Response" and "Message" fields, if
      present, and the records under "Data"/"Data", if present. */
  datatype Body = Body(response: Option<string>, message: Option<string>, data: Option<Records>)

  /** What the transport gives back: an HTTP error status, or a body. */
  datatype Reply = HttpFailure(status: int) | Json(body: Body)

  /** The `symbol` argument: one symbol, or an ordered list of them. */
  datatype Symbols = One(sym: CryptoSymbol) | Many(syms: seq<CryptoSymbol>)

  /** An insertion-ordered dictionary from symbol strings to tables. */
  datatype Dict = Dict(order: seq<string>, entries: map<string, Table>)

  /** The three shapes of result. */
  datatype Output = Single(table: Table) | ByName(dict: Dict) | Merged(table: Table)

  /** The outcome of a run together with the requests it issued. */
  datatype Run<+T> = Run(result: Result<T, Error>, sent: seq<Request>)

  // ---------------------------------------------------------------------
  // Building the request
  // ---------------------------------------------------------------------

  /** The endpoint for a unit: a fixed three-way lookup. */
  function UnitUrl(unit: string): (url: Option<string>)
    ensures url.Some? <==> unit == "minute" || unit == "hour" || unit == "day"
    ensures url == Some(MinuteUrl) <==> unit == "minute"
    ensures url == Some(HourUrl) <==> unit == "hour"
    ensures url == Some(DayUrl) <==> unit == "day"
  {
    var urls := map["minute" := MinuteUrl, "hour" := HourUrl, "day" := DayUrl];
    if unit in urls then Some(urls[unit]) else None
  }

  /** Python truthiness of `exchange`: neither None nor the empty string. */
  predicate Truthy(exchange: Option<string>) {
    exchange.Some? && exchange.value != ""
  }

  /** The query parameters: always the base symbol, the quote symbol and
      the limit; the exchange only when it is truthy. */
  function BuildParams(sym: CryptoSymbol, limit: int, exchange: Option<string>): (p: map<string, Param>)
    ensures p.Keys == {"fsym", "tsym", "limit"} + (if Truthy(exchange) then {"e"} else {})
    ensures p["fsym"] == StrParam(sym.symbol)
    ensures p["tsym"] == StrParam(sym.pair)
    ensures p["limit"] == IntParam(limit)
    ensures "e" in p <==> Truthy(exchange)
    ensures "e" in p ==> p["e"] == StrParam(exchange.value)
  {
    var base := map["fsym" := StrParam(sym.symbol), "tsym" := StrParam(sym.pair), "limit" := IntParam(limit)];
    if Truthy(exchange) then base["e" := StrParam(exchange.value)] else base
  }

  /** The one request issued for `sym`. */
  function RequestFor(q: Query, sym: CryptoSymbol): Request
    requires UnitUrl(q.unit).Some?
  {
    Request(UnitUrl(q.unit).value, BuildParams(sym, q.limit, q.exchange))
  }

  /** A call with the default arguments asks the daily endpoint for 2000
      points with no exchange, and indexes by time without merging. */
  lemma DefaultRequest(sym: CryptoSymbol)
    ensures UnitUrl(Defaults.unit) == Some(DayUrl)
    ensures RequestFor(Defaults, sym) ==
              Request(DayUrl, map["fsym" := StrParam(sym.symbol), "tsym" := StrParam(sym.pair), "limit" := IntParam(2000)])
    ensures IndexName(Defaults) == Some(TimeColumn) && !Defaults.merge
  {
  }

  // ---------------------------------------------------------------------
  // Reading the reply
  // ---------------------------------------------------------------------

  /** `f"API Error: {data.get('Message')}"`: an absent message prints as None. */
  function ApiMessage(message: Option<string>): string {
    "API Error: " + (if message.Some? then message.value else "None")
  }

  /** An HTTP error status raises; a body whose "Response" is not
      "Success" raises with the upstream message; otherwise the records
      become a table whose "time" column is converted to timestamps. */
  function ReadReply(reply: Reply): (r: Result<Table, Error>)
    ensures reply.HttpFailure? ==> r == Err(HttpError(reply.status))
    ensures reply.Json? && reply.body.response != Some(SuccessMarker) ==>
              r == Err(ApiError(ApiMessage(reply.body.message)))
    ensures r.Ok? ==> && reply.Json?
                      && reply.body.response == Some(SuccessMarker)
                      && reply.body.data.Some?
                      && Converted(r.value, TimeColumn)
                      && r.value.index == None
                      && r.value.keys == Positions(|reply.body.data.value.rows|)
                      && Names(r.value.columns) == reply.body.data.value.fields
    ensures reply.Json? && reply.body.response == Some(SuccessMarker) && reply.body.data.None? ==>
              r == Err(KeyError("Data"))
    ensures reply.Json? && reply.body.response == Some(SuccessMarker) && reply.body.data.Some? ==>
              r == ConvertTime(FromRecords(reply.body.data.value), TimeColumn)
  {
    match reply
    case HttpFailure(status) => Err(HttpError(status))
    case Json(body) =>
      if body.response != Some(SuccessMarker) then Err(ApiError(ApiMessage(body.message)))
      else if body.data.None? then Err(KeyError("Data"))
      else
        var t := FromRecords(body.data.value);
        var c := ConvertTime(t, TimeColumn);
        if c.Ok? then ConvertTimeIdempotent(t, TimeColumn); c else c
  }

  /** A successful reply whose list of records is empty gives a table
      without a time column, so reading it raises. */
  lemma ReadReplyNoRecords(reply: Reply)
    requires reply.Json? && reply.body.response == Some(SuccessMarker) && reply.body.data.Some?
    requires RecordsFit(reply.body.data.value) && reply.body.data.value.rows == []
    ensures ReadReply(reply) == Err(KeyError(TimeColumn))
  {
    NoRecordsNoFields(reply.body.data.value);
  }

  /** `_single_symbol_price_hist`: the unit is checked before anything is
      sent; then exactly one request goes out and its reply decides. */
  function FetchOne(fetch: Request -> Reply, q: Query, sym: CryptoSymbol): Run<Table> {
    match UnitUrl(q.unit)
    case None => Run(Err(UnitError(UnitMessage)), [])
    case Some(url) =>
      var req := Request(url, BuildParams(sym, q.limit, q.exchange));
      Run(ReadReply(fetch(req)), [req])
  }

  /** The step-by-step version of FetchOne. */
  method SingleSymbolPriceHist(fetch: Request -> Reply, q: Query, sym: CryptoSymbol)
    returns (r: Result<Table, Error>, sent: seq<Request>)
    ensures UnitUrl(q.unit).None? ==> r == Err(UnitError(UnitMessage)) && sent == []
    ensures UnitUrl(q.unit).Some? ==>
              && sent == [Request(UnitUrl(q.unit).value, BuildParams(sym, q.limit, q.exchange))]
              && r == ReadReply(fetch(sent[0]))
    ensures Run(r, sent) == FetchOne(fetch, q, sym)
  {
    var url := UnitUrl(q.unit);
    if url.None? {
      return Err(UnitError(UnitMessage)), [];
    }
    var params := map["fsym" := StrParam(sym.symbol), "tsym" := StrParam(sym.pair), "limit" := IntParam(q.limit)];
    if Truthy(q.exchange) {
      params := params["e" := StrParam(q.exchange.value)];
    }
    var req := Request(url.value, params);
    sent := [req];
    var reply := fetch(req);
    if reply.HttpFailure? {
      return Err(HttpError(reply.status)), sent;
    }
    var body := reply.body;
    if body.response != Some(SuccessMarker) {
      return Err(ApiError(ApiMessage(body.message))), sent;
    }
    if body.data.None? {
      return Err(KeyError("Data")), sent;
    }
    var df := FromRecords(body.data.value);
    r := ConvertTime(df, TimeColumn);
  }

  // ---------------------------------------------------------------------
  // What the model assumes of the upstream replies
  // ---------------------------------------------------------------------

  /** No column label contains an underscore (true of the upstream's
      fields: time, open, high, low, close, volumefrom, ...). */
  predicate PlainNames(t: Table) {
    forall i | 0 <= i < |t.columns| :: '_' !in t.columns[i].name
  }

  /** A reply fits the query when its fields are the keys of its records,
      when the chosen index column holds distinct values (pandas would
      otherwise build a duplicated index) and, when merging, when no label
      has an underscore. The last is stronger than needed: prefixed labels
      of two symbols clash only when one symbol string is another followed
      by "_" and more, but it makes "{symbol}_" identify the symbol. */
  predicate ReplyFits(reply: Reply, q: Query) {
    && (reply.Json? && reply.body.data.Some? ==> RecordsFit(reply.body.data.value))
    && (match ReadReply(reply)
        case Ok(t) => (q.index != "" ==> UniqueColumn(t, q.index)) && (q.merge ==> PlainNames(t))
        case Err(_) => true)
  }

  ghost predicate Fits(fetch: Request -> Reply, q: Query) {
    forall req {:trigger fetch(req)} :: ReplyFits(fetch(req), q)
  }

  /** What a call assumes of its replies: a single symbol ignores `merge`. */
  ghost predicate FitsFor(fetch: Request -> Reply, q: Query, symbols: Symbols) {
    match symbols
    case One(_) => Fits(fetch, q.(merge := false))
    case Many(_) => Fits(fetch, q)
  }

  // ---------------------------------------------------------------------
  // Per-symbol shaping
  // ---------------------------------------------------------------------

  function IndexName(q: Query): Option<Name> {
    if q.index == "" then None else Some(q.index)
  }

  /** The labels that stay columns once the index is set: every field
      but the index column. */
  function DataLabels(q: Query, fields: seq<Name>): seq<Name> {
    if q.index == "" then fields else Without(fields, q.index)
  }

  /** The time column is converted (again), then, unless `index` is "",
      that column becomes the index. */
  function Reindex(q: Query, t: Table): (r: Result<Table, Error>)
    requires Converted(t, TimeColumn) && t.index == None
    requires q.index != "" ==> UniqueColumn(t, q.index)
    ensures r.Err? <==> q.index != "" && q.index !in Names(t.columns)
    ensures r.Err? ==> r.error == KeyError(q.index)
    ensures r.Ok? ==> && Valid(r.value)
                      && r.value.index == IndexName(q)
                      && (q.index != "" ==> q.index !in Names(r.value.columns))
                      && forall n | n in Names(r.value.columns) :: n in Names(t.columns)
    ensures q.index == "" ==> r == Ok(t)
  {
    var t1 := ConvertTime(t, TimeColumn).value;
    if q.index == "" then Ok(t1)
    else
      var r := SetIndex(t1, q.index);
      if r.Ok? then
        var i := IndexOf(Names(t.columns), q.index);
        assert forall n | n in Drop(Names(t.columns), i) :: n in Names(t.columns);
        r
      else r
  }

  /** Which table Reindex gives: the table itself for index "", otherwise
      `set_index` on it, whose rows are keyed by the index column's values
      and whose other columns keep their cells; the labels left are the
      fields other than the index, in order. */
  lemma ReindexTable(q: Query, t: Table)
    requires Converted(t, TimeColumn) && t.index == None
    requires q.index != "" ==> UniqueColumn(t, q.index)
    ensures q.index != "" ==> Reindex(q, t) == SetIndex(t, q.index)
    ensures Reindex(q, t).Ok? ==> Names(Reindex(q, t).value.columns) == DataLabels(q, Names(t.columns))
  {
    if q.index != "" && q.index in Names(t.columns) {
      DropWithout(Names(t.columns), IndexOf(Names(t.columns), q.index));
    }
  }

  /** `"{key}_{label}"` for a label without underscores. */
  predicate Tagged(n: Name, key: string) {
    |key| < |n| && n[..|key| + 1] == key + "_" && '_' !in n[|key| + 1..]
  }

  /** The shape every per-symbol table has once the loop body is done. */
  predicate Prepared(q: Query, key: string, t: Table) {
    && Valid(t)
    && t.index == IndexName(q)
    && (q.index != "" ==> q.index !in Names(t.columns))
    && (q.merge ==> forall i | 0 <= i < |t.columns| :: Tagged(t.columns[i].name, key))
  }

  /** The body of the per-symbol loop: reindex, then prefix every label
      with the symbol string when merging. */
  function Prepare(q: Query, key: string, t: Table): (r: Result<Table, Error>)
    requires Converted(t, TimeColumn) && t.index == None
    requires q.index != "" ==> UniqueColumn(t, q.index)
    requires q.merge ==> PlainNames(t)
    ensures r.Err? <==> q.index != "" && q.index !in Names(t.columns)
    ensures r.Err? ==> r.error == KeyError(q.index)
    ensures r.Ok? ==> Prepared(q, key, r.value)
  {
    match Reindex(q, t)
    case Err(e) => Err(e)
    case Ok(u) =>
      if q.merge then
        PlainNamesSubset(t, u);
        AddPrefixKeepsValid(u, key);
        AddPrefixTagged(u, key);
        Ok(AddPrefixToDf(u, key))
      else Ok(u)
  }

  /** Which table Prepare gives: the reindexed table with the same rows
      and cells, its j-th label renamed "{key}_{label}" when merging; so
      its labels are the fields other than the index, in order, prefixed
      when merging. */
  lemma PrepareTable(q: Query, key: string, t: Table)
    requires Converted(t, TimeColumn) && t.index == None
    requires q.index != "" ==> UniqueColumn(t, q.index)
    requires q.merge ==> PlainNames(t)
    ensures Prepare(q, key, t).Err? ==> Prepare(q, key, t) == Reindex(q, t)
    ensures Prepare(q, key, t).Ok? ==>
              var r, u := Prepare(q, key, t).value, Reindex(q, t).value;
              && r.index == u.index && r.keys == u.keys
              && |r.columns| == |u.columns|
              && (forall j | 0 <= j < |u.columns| ::
                    && r.columns[j].cells == u.columns[j].cells
                    && r.columns[j].name == (if q.merge then PrefixName(key, u.columns[j].name) else u.columns[j].name))
              && Names(r.columns) ==
                   (if q.merge then PrefixNames(key, DataLabels(q, Names(t.columns)))
                    else DataLabels(q, Names(t.columns)))
  {
    ReindexTable(q, t);
  }

  /** A table whose labels all come from a table without underscores has
      none either. */
  lemma PlainNamesSubset(t: Table, u: Table)
    requires PlainNames(t)
    requires forall n | n in Names(u.columns) :: n in Names(t.columns)
    ensures PlainNames(u)
  {
    forall i | 0 <= i < |u.columns| ensures '_' !in u.columns[i].name {
      var n := u.columns[i].name;
      assert n == Names(u.columns)[i];
      assert n in Names(t.columns);
      var j :| 0 <= j < |t.columns| && Names(t.columns)[j] == n;
      assert t.columns[j].name == n;
    }
  }

  /** Prefixing labels without underscores tags each with the prefix. */
  lemma AddPrefixTagged(u: Table, key: string)
    requires PlainNames(u)
    ensures var p := AddPrefixToDf(u, key);
            forall i | 0 <= i < |p.columns| :: Tagged(p.columns[i].name, key)
  {
    var p := AddPrefixToDf(u, key);
    forall i | 0 <= i < |p.columns| ensures Tagged(p.columns[i].name, key) {
      assert p.columns[i].name[|key| + 1..] == u.columns[i].name;
    }
  }

  /** One symbol's fetch followed by its shaping. */
  function FetchPrepared(fetch: Request -> Reply, q: Query, sym: CryptoSymbol): (run: Run<Table>)
    requires Fits(fetch, q)
    ensures run.result.Ok? ==> Prepared(q, sym.ToString(), run.result.value)
  {
    var one := FetchOne(fetch, q, sym);
    match one.result
    case Err(e) => one
    case Ok(t) =>
      assert ReplyFits(fetch(RequestFor(q, sym)), q);
      Run(Prepare(q, sym.ToString(), t), one.sent)
  }

  /** Which table one symbol's fetch and shaping gives: nothing is sent
      for a bad unit; otherwise the symbol's one request is sent, a failed
      reply is the error, and a table read from the reply is shaped by Prepare. */
  lemma FetchPreparedReply(fetch: Request -> Reply, q: Query, sym: CryptoSymbol)
    requires Fits(fetch, q)
    ensures var run := FetchPrepared(fetch, q, sym);
            UnitUrl(q.unit).None? ==> run == Run(Err(UnitError(UnitMessage)), [])
    ensures var run := FetchPrepared(fetch, q, sym);
            UnitUrl(q.unit).Some? ==>
              var req := RequestFor(q, sym);
              && run.sent == [req]
              && (ReadReply(fetch(req)).Err? ==> run.result == ReadReply(fetch(req)))
              && (ReadReply(fetch(req)).Ok? ==>
                    && ReplyFits(fetch(req), q)
                    && run.result == Prepare(q, sym.ToString(), ReadReply(fetch(req)).value))
  {
  }

  // ---------------------------------------------------------------------
  // The dictionary of per-symbol tables
  // ---------------------------------------------------------------------

  /** `d[key] = t`: a new key goes last, an existing key keeps its place. */
  function Insert(d: Dict, key: string, t: Table): Dict {
    Dict(if key in d.entries then d.order else d.order + [key], d.entries[key := t])
  }

  ghost predicate DictValid(d: Dict) {
    Distinct(d.order) && forall k :: k in d.entries <==> k in d.order
  }

  function Strings(syms: seq<CryptoSymbol>): (r: seq<string>)
    ensures |r| == |syms|
    ensures forall i | 0 <= i < |syms| :: r[i] == syms[i].ToString()
  {
    seq(|syms|, i requires 0 <= i < |syms| => syms[i].ToString())
  }

  /** The first occurrence of each string, in order. */
  function FirstOccurrences(s: seq<string>): seq<string> {
    if s == [] then []
    else
      var init := FirstOccurrences(s[..|s| - 1]);
      if s[|s| - 1] in s[..|s| - 1] then init else init + [s[|s| - 1]]
  }

  lemma {:induction false} FirstOccurrencesMembers(s: seq<string>, x: string)
    ensures x in FirstOccurrences(s) <==> x in s
  {
    if s != [] {
      FirstOccurrencesMembers(s[..|s| - 1], x);
      assert s == s[..|s| - 1] + [s[|s| - 1]];
    }
  }

  /** The dictionary-filling loop over per-symbol runs: each successful
      run adds its table under its key, and the first failure ends the
      whole run, so later symbols are never fetched. */
  function Fold(keys: seq<string>, runs: seq<Run<Table>>): Run<Dict>
    requires |keys| == |runs|
    decreases |runs|
  {
    if runs == [] then Run(Ok(Dict([], map[])), [])
    else
      var n := |runs| - 1;
      var prev := Fold(keys[..n], runs[..n]);
      if prev.result.Err? then prev
      else
        var sent := prev.sent + runs[n].sent;
        match runs[n].result
        case Err(e) => Run(Err(e), sent)
        case Ok(t) => Run(Ok(Insert(prev.result.value, keys[n], t)), sent)
  }

  /** Each symbol's fetch and shaping, in input order. */
  ghost function Runs(fetch: Request -> Reply, q: Query, syms: seq<CryptoSymbol>): (rs: seq<Run<Table>>)
    requires Fits(fetch, q)
    ensures |rs| == |syms|
  {
    seq(|syms|, i requires 0 <= i < |syms| => FetchPrepared(fetch, q, syms[i]))
  }

  /** The first loop of `symbol_price_hist`. */
  ghost function Collect(fetch: Request -> Reply, q: Query, syms: seq<CryptoSymbol>): Run<Dict>
    requires Fits(fetch, q)
  {
    Fold(Strings(syms), Runs(fetch, q, syms))
  }

  /** Once a prefix of the runs has failed, the rest changes nothing. */
  lemma {:induction false} FoldStops(keys: seq<string>, runs: seq<Run<Table>>, j: nat)
    requires |keys| == |runs| && j <= |runs|
    requires Fold(keys[..j], runs[..j]).result.Err?
    ensures Fold(keys, runs) == Fold(keys[..j], runs[..j])
    decreases |runs|
  {
    if j < |runs| {
      var n := |runs| - 1;
      assert keys[..n][..j] == keys[..j];
      assert runs[..n][..j] == runs[..j];
      FoldStops(keys[..n], runs[..n], j);
    } else {
      assert keys[..j] == keys && runs[..j] == runs;
    }
  }

  /** The run over a prefix one longer extends the run over the prefix. */
  lemma FoldStep(keys: seq<string>, runs: seq<Run<Table>>, i: nat)
    requires |keys| == |runs| && i < |runs|
    ensures var prev := Fold(keys[..i], runs[..i]);
            Fold(keys[..i + 1], runs[..i + 1]) ==
              if prev.result.Err? then prev
              else if runs[i].result.Err? then Run(Err(runs[i].result.error), prev.sent + runs[i].sent)
              else Run(Ok(Insert(prev.result.value, keys[i], runs[i].result.value)), prev.sent + runs[i].sent)
  {
    assert keys[..i + 1][..i] == keys[..i];
    assert runs[..i + 1][..i] == runs[..i];
  }

  /** The requests of all runs, in order. */
  function AllSent(runs: seq<Run<Table>>): seq<Request> {
    if runs == [] then [] else AllSent(runs[..|runs| - 1]) + runs[|runs| - 1].sent
  }

  /** A successful run went through every symbol and sent all their
      requests; a failed one sent a prefix of them. */
  lemma {:induction false} FoldSent(keys: seq<string>, runs: seq<Run<Table>>)
    requires |keys| == |runs|
    ensures var f := Fold(keys, runs);
            && f.sent <= AllSent(runs)
            && (f.result.Ok? ==> f.sent == AllSent(runs) && forall i | 0 <= i < |runs| :: runs[i].result.Ok?)
    decreases |runs|
  {
    if runs != [] {
      var n := |runs| - 1;
      FoldSent(keys[..n], runs[..n]);
      var f := Fold(keys, runs);
      if f.result.Ok? {
        forall i | 0 <= i < |runs| ensures runs[i].result.Ok? {
          if i < n {
            assert runs[..n][i] == runs[i];
          }
        }
      }
    }
  }

  /** After a successful run the dictionary lists each distinct key once,
      in order of first occurrence. */
  lemma {:induction false} FoldOrder(keys: seq<string>, runs: seq<Run<Table>>)
    requires |keys| == |runs| && Fold(keys, runs).result.Ok?
    ensures var d := Fold(keys, runs).result.value;
            DictValid(d) && d.order == FirstOccurrences(keys)
    decreases |runs|
  {
    if runs != [] {
      var n := |runs| - 1;
      var ks, rs := keys[..n], runs[..n];
      FoldOrder(ks, rs);
      var d0 := Fold(ks, rs).result.value;
      assert Fold(keys, runs).result.value == Insert(d0, keys[n], runs[n].result.value);
      assert FirstOccurrences(keys) ==
        if keys[n] in ks then FirstOccurrences(ks) else FirstOccurrences(ks) + [keys[n]];
      InsertValid(d0, keys[n], runs[n].result.value);
      FirstOccurrencesMembers(ks, keys[n]);
    }
  }

  /** The dictionary's keys are exactly the input keys. */
  lemma FoldKeys(keys: seq<string>, runs: seq<Run<Table>>)
    requires |keys| == |runs| && Fold(keys, runs).result.Ok?
    ensures var d := Fold(keys, runs).result.value;
            forall k :: k in d.entries <==> k in keys
  {
    FoldOrder(keys, runs);
    forall k ensures k in Fold(keys, runs).result.value.entries <==> k in keys {
      FirstOccurrencesMembers(keys, k);
    }
  }

  /** Inserting keeps the order and the keys in step. */
  lemma InsertValid(d: Dict, key: string, t: Table)
    requires DictValid(d)
    ensures var e := Insert(d, key, t);
            && DictValid(e)
            && e.order == (if key in d.order then d.order else d.order + [key])
  {
    var e := Insert(d, key, t);
    if key !in d.order {
      forall a, b | 0 <= a < b < |e.order| ensures e.order[a] != e.order[b] {
        if b == |d.order| {
          assert e.order[a] in d.order;
        }
      }
    }
  }

  /** Every table in the dictionary is the table of a run under its key,
      so whatever holds of each run's table holds of each entry. */
  lemma {:induction false} FoldEntries(q: Query, keys: seq<string>, runs: seq<Run<Table>>)
    requires |keys| == |runs| && Fold(keys, runs).result.Ok?
    requires forall i | 0 <= i < |runs| && runs[i].result.Ok? :: Prepared(q, keys[i], runs[i].result.value)
    ensures var d := Fold(keys, runs).result.value;
            forall k | k in d.entries :: Prepared(q, k, d.entries[k])
    decreases |runs|
  {
    if runs != [] {
      var n := |runs| - 1;
      forall i | 0 <= i < n && runs[..n][i].result.Ok?
        ensures Prepared(q, keys[..n][i], runs[..n][i].result.value)
      {
        assert runs[..n][i] == runs[i] && keys[..n][i] == keys[i];
      }
      FoldEntries(q, keys[..n], runs[..n]);
    }
  }

  /** The tables of the successful runs, each under its key, a later key
      overwriting an earlier one. */
  function Values(keys: seq<string>, runs: seq<Run<Table>>): map<string, Table>
    requires |keys| == |runs|
    decreases |runs|
  {
    if runs == [] then map[]
    else
      var n := |runs| - 1;
      var init := Values(keys[..n], runs[..n]);
      if runs[n].result.Ok? then init[keys[n] := runs[n].result.value] else init
  }

  /** The dictionary of a successful run holds what Values says. */
  lemma {:induction false} FoldValues(keys: seq<string>, runs: seq<Run<Table>>)
    requires |keys| == |runs| && Fold(keys, runs).result.Ok?
    ensures Fold(keys, runs).result.value.entries == Values(keys, runs)
    decreases |runs|
  {
    if runs != [] {
      var n := |runs| - 1;
      FoldValues(keys[..n], runs[..n]);
    }
  }

  /** Dropping the last of distinct keys leaves distinct keys without it. */
  lemma DistinctInit(keys: seq<string>)
    requires Distinct(keys) && keys != []
    ensures Distinct(keys[..|keys| - 1]) && keys[|keys| - 1] !in keys[..|keys| - 1]
  {
  }

  /** Under distinct keys every successful run's table is found under its key. */
  lemma {:induction false} ValuesDistinct(keys: seq<string>, runs: seq<Run<Table>>)
    requires |keys| == |runs| && Distinct(keys)
    ensures forall i | 0 <= i < |keys| && runs[i].result.Ok? ::
              keys[i] in Values(keys, runs) && Values(keys, runs)[keys[i]] == runs[i].result.value
    decreases |runs|
  {
    if runs != [] {
      var n := |runs| - 1;
      var ks, rs := keys[..n], runs[..n];
      DistinctInit(keys);
      ValuesDistinct(ks, rs);
      forall i | 0 <= i < n && runs[i].result.Ok?
        ensures keys[i] in Values(keys, runs) && Values(keys, runs)[keys[i]] == runs[i].result.value
      {
        assert ks[i] == keys[i] && rs[i] == runs[i];
      }
    }
  }

  /** Without duplicates every element is a first occurrence. */
  lemma {:induction false} FirstOccurrencesDistinct(s: seq<string>)
    requires Distinct(s)
    ensures FirstOccurrences(s) == s
  {
    if s != [] {
      DistinctInit(s);
      FirstOccurrencesDistinct(s[..|s| - 1]);
      assert s[..|s| - 1] + [s[|s| - 1]] == s;
    }
  }

  /** With distinct keys the dictionary lists the keys in input order and
      holds each run's table under its own key. */
  lemma FoldDistinct(keys: seq<string>, runs: seq<Run<Table>>)
    requires |keys| == |runs| && Fold(keys, runs).result.Ok? && Distinct(keys)
    ensures var d := Fold(keys, runs).result.value;
            && d.order == keys
            && forall i | 0 <= i < |keys| ::
                 runs[i].result.Ok? && keys[i] in d.entries && d.entries[keys[i]] == runs[i].result.value
  {
    FoldOrder(keys, runs);
    FirstOccurrencesDistinct(keys);
    FoldSent(keys, runs);
    FoldValues(keys, runs);
    ValuesDistinct(keys, runs);
  }

  /** When every run succeeds, so does the fold, having sent every request. */
  lemma {:induction false} FoldAllOk(keys: seq<string>, runs: seq<Run<Table>>)
    requires |keys| == |runs|
    requires forall i | 0 <= i < |runs| :: runs[i].result.Ok?
    ensures Fold(keys, runs).result.Ok? && Fold(keys, runs).sent == AllSent(runs)
    decreases |runs|
  {
    if runs != [] {
      var n := |runs| - 1;
      assert forall i | 0 <= i < n :: runs[..n][i] == runs[i];
      FoldAllOk(keys[..n], runs[..n]);
    }
  }

  /** The first failing run decides the outcome: its error, after the
      requests of that run and of the ones before it. */
  lemma FoldFirstError(keys: seq<string>, runs: seq<Run<Table>>, i: nat)
    requires |keys| == |runs| && i < |runs|
    requires forall j | 0 <= j < i :: runs[j].result.Ok?
    requires runs[i].result.Err?
    ensures Fold(keys, runs) == Run(Err(runs[i].result.error), AllSent(runs[..i + 1]))
  {
    assert forall j | 0 <= j < i :: runs[..i][j] == runs[j];
    FoldAllOk(keys[..i], runs[..i]);
    FoldStep(keys, runs, i);
    assert runs[..i + 1][..i] == runs[..i];
    FoldStops(keys, runs, i + 1);
  }

  // ---------------------------------------------------------------------
  // The merge: a left fold of outer joins
  // ---------------------------------------------------------------------

  /** The column labels of all tables, table after table. */
  function AllNames(ts: seq<Table>): seq<Name> {
    if ts == [] then [] else AllNames(ts[..|ts| - 1]) + Names(ts[|ts| - 1].columns)
  }

  /** The row keys of all tables. */
  function UnionKeys(ts: seq<Table>): set<Value> {
    if ts == [] then {} else UnionKeys(ts[..|ts| - 1]) + ts[|ts| - 1].keys
  }

  /** The total number of columns. */
  function Width(ts: seq<Table>): nat {
    if ts == [] then 0 else Width(ts[..|ts| - 1]) + |ts[|ts| - 1].columns|
  }

  /** No label is shared by two different tables. */
  predicate PairwiseDisjoint(ts: seq<Table>) {
    forall i, j | 0 <= i < j < |ts| :: DisjointNames(Names(ts[i].columns), Names(ts[j].columns))
  }

  predicate Mergeable(ts: seq<Table>) {
    && |ts| >= 1
    && (forall i | 0 <= i < |ts| :: Valid(ts[i]) && ts[i].index == ts[0].index)
    && PairwiseDisjoint(ts)
  }

  lemma {:induction false} AllNamesFrom(ts: seq<Table>, n: Name)
    requires n in AllNames(ts)
    ensures exists i | 0 <= i < |ts| :: n in Names(ts[i].columns)
  {
    var init := ts[..|ts| - 1];
    if n !in Names(ts[|ts| - 1].columns) {
      AllNamesFrom(init, n);
      var i :| 0 <= i < |init| && n in Names(init[i].columns);
      assert init[i] == ts[i];
    }
  }

  lemma {:induction false} AllNamesWidth(ts: seq<Table>)
    ensures |AllNames(ts)| == Width(ts)
  {
    if ts != [] {
      AllNamesWidth(ts[..|ts| - 1]);
    }
  }

  /** Tables of equal width: the merge is that width times their number,
      so two symbols of eight fields each give sixteen columns. */
  lemma {:induction false} WidthUniform(ts: seq<Table>, w: nat)
    requires forall i | 0 <= i < |ts| :: |ts[i].columns| == w
    ensures Width(ts) == w * |ts|
    decreases |ts|
  {
    if ts != [] {
      var n := |ts| - 1;
      assert forall i | 0 <= i < n :: ts[..n][i] == ts[i];
      WidthUniform(ts[..n], w);
    }
  }

  /** `df_res = data[first]; for each later symbol: df_res = merge(df_res, data[sym])`. */
  function MergeAll(ts: seq<Table>): (m: Table)
    requires Mergeable(ts)
    ensures Valid(m)
    ensures m.index == ts[0].index
    ensures m.keys == UnionKeys(ts)
    ensures Names(m.columns) == AllNames(ts)
    decreases |ts|
  {
    if |ts| == 1 then
      assert ts[..0] == [];
      ts[0]
    else
      var init := ts[..|ts| - 1];
      var last := ts[|ts| - 1];
      assert Mergeable(init) by {
        assert forall i | 0 <= i < |init| :: init[i] == ts[i];
      }
      var acc := MergeAll(init);
      assert DisjointNames(Names(acc.columns), Names(last.columns)) by {
        forall n | n in Names(acc.columns) ensures n !in Names(last.columns) {
          AllNamesFrom(init, n);
          var i :| 0 <= i < |init| && n in Names(init[i].columns);
          assert init[i] == ts[i];
          assert DisjointNames(Names(ts[i].columns), Names(last.columns));
        }
      }
      OuterJoin(acc, last)
  }

  /** A prefix of mergeable tables is mergeable. */
  lemma MergeablePrefix(ts: seq<Table>, i: nat)
    requires Mergeable(ts) && 1 <= i <= |ts|
    ensures Mergeable(ts[..i])
  {
    assert forall j | 0 <= j < i :: ts[..i][j] == ts[j];
  }

  /** One more step of the fold: the merge of the first i + 1 tables is the
      outer join of the merge of the first i with the next one. */
  lemma MergeAllStep(ts: seq<Table>, i: nat)
    requires Mergeable(ts) && 1 <= i < |ts|
    ensures Mergeable(ts[..i]) && Mergeable(ts[..i + 1])
    ensures DisjointNames(Names(MergeAll(ts[..i]).columns), Names(ts[i].columns))
    ensures MergeAll(ts[..i + 1]) == OuterJoin(MergeAll(ts[..i]), ts[i])
  {
    MergeablePrefix(ts, i);
    MergeablePrefix(ts, i + 1);
    var u := ts[..i + 1];
    assert u[..i] == ts[..i] && u[i] == ts[i];
    forall n | n in Names(MergeAll(ts[..i]).columns) ensures n !in Names(ts[i].columns) {
      AllNamesFrom(ts[..i], n);
      var j :| 0 <= j < i && n in Names(ts[..i][j].columns);
      assert ts[..i][j] == ts[j];
    }
  }

  /** The columns of all tables, table after table. */
  function AllColumns(ts: seq<Table>): (cs: seq<Column>)
    ensures Names(cs) == AllNames(ts)
  {
    if ts == [] then []
    else
      var init := ts[..|ts| - 1];
      NamesAppend(AllColumns(init), ts[|ts| - 1].columns);
      AllColumns(init) + ts[|ts| - 1].columns
  }

  /** The merge holds every column of every table, in input order, each
      padded with a missing value on the rows its table does not have. */
  lemma {:induction false} MergeAllColumns(ts: seq<Table>)
    requires Mergeable(ts)
    ensures MergeAll(ts).columns == PadAll(AllColumns(ts), UnionKeys(ts))
    decreases |ts|
  {
    if |ts| == 1 {
      MergeAllOne(ts);
    } else {
      MergeAllLast(ts);
      MergeAllColumns(ts[..|ts| - 1]);
      MergeAllColumnsStep(ts);
    }
  }

  /** The step of MergeAllColumns: if the merge of all but the last table
      is padded from their columns, so is the merge of all. */
  lemma MergeAllColumnsStep(ts: seq<Table>)
    requires Mergeable(ts) && |ts| >= 2
    requires var init := ts[..|ts| - 1];
             && Mergeable(init)
             && DisjointNames(Names(MergeAll(init).columns), Names(ts[|ts| - 1].columns))
             && MergeAll(ts) == OuterJoin(MergeAll(init), ts[|ts| - 1])
             && MergeAll(init).columns == PadAll(AllColumns(init), UnionKeys(init))
    ensures MergeAll(ts).columns == PadAll(AllColumns(ts), UnionKeys(ts))
  {
    var n := |ts| - 1;
    var init := ts[..n];
    AllColumnsKeys(init);
    JoinPadded(MergeAll(init), ts[n], MergeAll(ts), AllColumns(init), UnionKeys(init));
  }

  /** The merge of several tables is the merge of all but the last,
      outer-joined with the last. */
  lemma MergeAllLast(ts: seq<Table>)
    requires Mergeable(ts) && |ts| >= 2
    ensures var init := ts[..|ts| - 1];
            && Mergeable(init)
            && DisjointNames(Names(MergeAll(init).columns), Names(ts[|ts| - 1].columns))
            && MergeAll(ts) == OuterJoin(MergeAll(init), ts[|ts| - 1])
  {
    MergeAllStep(ts, |ts| - 1);
    assert ts[..|ts|] == ts;
  }

  /** A single table is its own merge. */
  lemma MergeAllOne(ts: seq<Table>)
    requires Mergeable(ts) && |ts| == 1
    ensures MergeAll(ts).columns == PadAll(AllColumns(ts), UnionKeys(ts))
  {
    assert ts[..0] == [];
    assert AllColumns(ts) == ts[0].columns;
    assert UnionKeys(ts) == ts[0].keys;
    PadAllValid(ts[0]);
  }

  /** Joining a table padded from `prefix` with one more table pads the
      prefix and the new columns alike. */
  lemma JoinPadded(acc: Table, last: Table, m: Table, prefix: seq<Column>, inner: set<Value>)
    requires acc.columns == PadAll(prefix, inner)
    requires forall x | 0 <= x < |prefix| :: prefix[x].cells.Keys <= inner
    requires m.keys == inner + last.keys
    requires m.columns == PadAll(acc.columns, m.keys) + PadAll(last.columns, m.keys)
    ensures m.columns == PadAll(prefix + last.columns, m.keys)
  {
    PadAllTwice(prefix, inner, m.keys);
    PadAllAppend(prefix, last.columns, m.keys);
  }

  /** Each table's cells, read through the merge: its value where the table
      has the row, a missing value elsewhere. */
  lemma MergeAllCells(ts: seq<Table>)
    requires Mergeable(ts)
    ensures var m := MergeAll(ts);
            && |m.columns| == |AllColumns(ts)|
            && forall x, k | 0 <= x < |m.columns| && k in m.keys ::
                 m.columns[x].cells[k] == Get(AllColumns(ts)[x], k)
  {
    MergeAllColumns(ts);
  }

  lemma PadTwice(c: Column, inner: set<Value>, outer: set<Value>)
    requires c.cells.Keys <= inner <= outer
    ensures Pad(Pad(c, inner), outer) == Pad(c, outer)
  {
    assert Pad(Pad(c, inner), outer).cells == Pad(c, outer).cells;
  }

  /** Padding to a set of rows and then to a larger one is padding once. */
  lemma PadAllTwice(cs: seq<Column>, inner: set<Value>, outer: set<Value>)
    requires forall x | 0 <= x < |cs| :: cs[x].cells.Keys <= inner
    requires inner <= outer
    ensures PadAll(PadAll(cs, inner), outer) == PadAll(cs, outer)
  {
    forall x | 0 <= x < |cs| ensures PadAll(PadAll(cs, inner), outer)[x] == PadAll(cs, outer)[x] {
      PadTwice(cs[x], inner, outer);
    }
  }

  lemma PadAllAppend(a: seq<Column>, b: seq<Column>, keys: set<Value>)
    ensures PadAll(a, keys) + PadAll(b, keys) == PadAll(a + b, keys)
  {
  }

  /** A well-formed table is already padded to its own rows. */
  lemma PadAllValid(t: Table)
    requires Valid(t)
    ensures PadAll(t.columns, t.keys) == t.columns
  {
    forall x | 0 <= x < |t.columns| ensures Pad(t.columns[x], t.keys) == t.columns[x] {
      assert Pad(t.columns[x], t.keys).cells == t.columns[x].cells;
    }
  }

  /** Every column of every table has its rows among the union of rows. */
  lemma {:induction false} AllColumnsKeys(ts: seq<Table>)
    requires forall i | 0 <= i < |ts| :: Valid(ts[i])
    ensures forall x | 0 <= x < |AllColumns(ts)| :: AllColumns(ts)[x].cells.Keys <= UnionKeys(ts)
    decreases |ts|
  {
    if ts != [] {
      var n := |ts| - 1;
      var init := ts[..n];
      assert forall i | 0 <= i < n :: init[i] == ts[i];
      AllColumnsKeys(init);
      var cs := AllColumns(ts);
      forall x | 0 <= x < |cs| ensures cs[x].cells.Keys <= UnionKeys(ts) {
        if x >= |AllColumns(init)| {
          assert cs[x] == ts[n].columns[x - |AllColumns(init)|];
        } else {
          assert cs[x] == AllColumns(init)[x];
        }
      }
    }
  }

  // ---------------------------------------------------------------------
  // The whole operation
  // ---------------------------------------------------------------------

  /** Merging needs the symbol strings to be distinct (pandas would
      otherwise suffix the shared labels). */
  predicate MergeReady(q: Query, symbols: Symbols) {
    q.merge && symbols.Many? ==> Distinct(Strings(symbols.syms))
  }

  /** The tables of `d` under `keys`, in that order. */
  function Tables(d: Dict, keys: seq<string>): (ts: seq<Table>)
    requires forall i | 0 <= i < |keys| :: keys[i] in d.entries
    ensures |ts| == |keys|
    ensures forall i | 0 <= i < |keys| :: ts[i] == d.entries[keys[i]]
  {
    seq(|keys|, i requires 0 <= i < |keys| => d.entries[keys[i]])
  }

  /** A label cannot be tagged with two different keys. */
  lemma TaggedUnderscore(n: Name, k: string)
    requires Tagged(n, k)
    ensures n[|k|] == '_'
    ensures forall p | |k| < p < |n| :: n[p] != '_'
  {
    assert n[|k|] == (k + "_")[|k|];
    forall p | |k| < p < |n| ensures n[p] != '_' {
      assert n[p] == n[|k| + 1..][p - |k| - 1];
    }
  }

  lemma TaggedApart(n: Name, k1: string, k2: string)
    requires Tagged(n, k1) && Tagged(n, k2)
    ensures k1 == k2
  {
    TaggedUnderscore(n, k1);
    TaggedUnderscore(n, k2);
    assert |k1| == |k2|;
    assert k1 == n[..|k1| + 1][..|k1|] == n[..|k2| + 1][..|k2|] == k2;
  }

  /** Tables prefixed with distinct symbol strings share no label, and
      tables shaped by the same query share the index, so they can be merged. */
  lemma PreparedMergeable(q: Query, keys: seq<string>, ts: seq<Table>)
    requires q.merge && |keys| == |ts| >= 1 && Distinct(keys)
    requires forall i | 0 <= i < |ts| :: Prepared(q, keys[i], ts[i])
    ensures Mergeable(ts)
  {
    forall i, j | 0 <= i < j < |ts| ensures DisjointNames(Names(ts[i].columns), Names(ts[j].columns)) {
      forall n | n in Names(ts[i].columns) ensures n !in Names(ts[j].columns) {
        if n in Names(ts[j].columns) {
          var a :| 0 <= a < |ts[i].columns| && Names(ts[i].columns)[a] == n;
          var b :| 0 <= b < |ts[j].columns| && Names(ts[j].columns)[b] == n;
          assert Tagged(n, keys[i]);
          assert Tagged(n, keys[j]);
          TaggedApart(n, keys[i], keys[j]);
        }
      }
    }
  }

  /** Each successful run's table is shaped under its own symbol string. */
  lemma RunsPrepared(fetch: Request -> Reply, q: Query, syms: seq<CryptoSymbol>)
    requires Fits(fetch, q)
    ensures var keys, runs := Strings(syms), Runs(fetch, q, syms);
            forall i | 0 <= i < |runs| && runs[i].result.Ok? :: Prepared(q, keys[i], runs[i].result.value)
  {
    var keys, runs := Strings(syms), Runs(fetch, q, syms);
    forall i | 0 <= i < |runs| && runs[i].result.Ok? ensures Prepared(q, keys[i], runs[i].result.value) {
      assert runs[i] == FetchPrepared(fetch, q, syms[i]);
    }
  }

  /** A successful merged collection holds a table for every symbol, and
      those tables can be merged. */
  lemma CollectMergeable(fetch: Request -> Reply, q: Query, syms: seq<CryptoSymbol>)
    requires Fits(fetch, q) && q.merge && syms != [] && Distinct(Strings(syms))
    requires Collect(fetch, q, syms).result.Ok?
    ensures var d, keys := Collect(fetch, q, syms).result.value, Strings(syms);
            && (forall i | 0 <= i < |keys| :: keys[i] in d.entries)
            && Mergeable(Tables(d, keys))
  {
    var keys, runs := Strings(syms), Runs(fetch, q, syms);
    assert Collect(fetch, q, syms) == Fold(keys, runs);
    FoldDistinct(keys, runs);
    RunsPrepared(fetch, q, syms);
    var d := Fold(keys, runs).result.value;
    var ts := Tables(d, keys);
    PreparedMergeable(q, keys, ts);
  }

  /** The specification of `symbol_price_hist`. */
  ghost function Hist(fetch: Request -> Reply, q: Query, symbols: Symbols): Run<Output>
    requires FitsFor(fetch, q, symbols) && MergeReady(q, symbols)
  {
    match symbols
    case One(sym) =>
      var one := FetchOne(fetch, q, sym);
      if one.result.Err? then Run(Err(one.result.error), one.sent)
      else
        assert ReplyFits(fetch(RequestFor(q, sym)), q.(merge := false));
        var t := Reindex(q, one.result.value);
        Run(if t.Ok? then Ok(Single(t.value)) else Err(t.error), one.sent)
    case Many(syms) =>
      var c := Collect(fetch, q, syms);
      if c.result.Err? then Run(Err(c.result.error), c.sent)
      else if !q.merge then Run(Ok(ByName(c.result.value)), c.sent)
      else if syms == [] then Run(Err(IndexError), c.sent)
      else
        CollectMergeable(fetch, q, syms);
        Run(Ok(Merged(MergeAll(Tables(c.result.value, Strings(syms))))), c.sent)
  }

  /** The time column converted again, then the index set in place unless
      `index` is "". */
  method ReindexFrame(q: Query, t: Table) returns (r: Result<Table, Error>)
    requires Converted(t, TimeColumn) && t.index == None
    requires q.index != "" ==> UniqueColumn(t, q.index)
    ensures r == Reindex(q, t)
  {
    var df := ConvertTime(t, TimeColumn).value;
    if q.index != "" {
      var ix := SetIndex(df, q.index);
      if ix.Err? {
        return Err(ix.error);
      }
      df := ix.value;
    }
    return Ok(df);
  }

  /** The body of the first loop after the fetch: reindex, and prefix the
      labels with the symbol string when merging. */
  method ShapeFrame(q: Query, key: string, t: Table) returns (r: Result<Table, Error>)
    requires Converted(t, TimeColumn) && t.index == None
    requires q.index != "" ==> UniqueColumn(t, q.index)
    requires q.merge ==> PlainNames(t)
    ensures r == Prepare(q, key, t)
  {
    r := ReindexFrame(q, t);
    if r.Ok? && q.merge {
      r := Ok(AddPrefixToDf(r.value, key));
    }
  }

  /** One symbol fetched and shaped. */
  method FetchFrame(fetch: Request -> Reply, q: Query, sym: CryptoSymbol) returns (r: Result<Table, Error>, sent: seq<Request>)
    requires Fits(fetch, q)
    ensures Run(r, sent) == FetchPrepared(fetch, q, sym)
  {
    r, sent := SingleSymbolPriceHist(fetch, q, sym);
    if r.Ok? {
      assert ReplyFits(fetch(RequestFor(q, sym)), q);
      r := ShapeFrame(q, sym.ToString(), r.value);
    }
  }

  /** The first loop: fetch and shape each symbol in input order, storing
      its table under its string; the first failure ends the call. */
  method CollectFrames(fetch: Request -> Reply, q: Query, syms: seq<CryptoSymbol>)
    returns (r: Result<Dict, Error>, sent: seq<Request>)
    requires Fits(fetch, q)
    ensures Run(r, sent) == Collect(fetch, q, syms)
  {
    ghost var keys, runs := Strings(syms), Runs(fetch, q, syms);
    var data := Dict([], map[]);
    sent := [];
    for i := 0 to |syms|
      invariant Fold(keys[..i], runs[..i]) == Run(Ok(data), sent)
    {
      FoldStep(keys, runs, i);
      var df, s1 := FetchFrame(fetch, q, syms[i]);
      sent := sent + s1;
      if df.Err? {
        FoldStops(keys, runs, i + 1);
        return Err(df.error), sent;
      }
      data := Insert(data, syms[i].ToString(), df.value);
    }
    assert keys[..|syms|] == keys && runs[..|syms|] == runs;
    return Ok(data), sent;
  }

  /** Before the second loop: the first symbol's table alone. */
  lemma MergeFramesStart(data: Dict, syms: seq<CryptoSymbol>)
    requires forall j | 0 <= j < |syms| :: syms[j].ToString() in data.entries
    requires Mergeable(Tables(data, Strings(syms)))
    ensures var ts := Tables(data, Strings(syms));
            Mergeable(ts[..1]) && data.entries[syms[0].ToString()] == MergeAll(ts[..1])
  {
    var ts := Tables(data, Strings(syms));
    MergeablePrefix(ts, 1);
    assert ts[..1][0] == ts[0];
  }

  /** One pass of the second loop, stated on the symbols and the dictionary. */
  lemma MergeFramesStep(data: Dict, syms: seq<CryptoSymbol>, i: nat, acc: Table)
    requires forall j | 0 <= j < |syms| :: syms[j].ToString() in data.entries
    requires Mergeable(Tables(data, Strings(syms))) && 1 <= i < |syms|
    requires acc == MergeAll(Tables(data, Strings(syms))[..i])
    ensures var next := data.entries[syms[i].ToString()];
            && Valid(acc) && Valid(next)
            && DisjointNames(Names(acc.columns), Names(next.columns))
            && Mergeable(Tables(data, Strings(syms))[..i + 1])
            && OuterJoin(acc, next) == MergeAll(Tables(data, Strings(syms))[..i + 1])
  {
    var ts := Tables(data, Strings(syms));
    MergeAllStep(ts, i);
    assert ts[i] == data.entries[syms[i].ToString()];
  }

  /** The second loop: start from the first symbol's table and outer-join
      the others onto it, in input order. */
  method MergeFrames(data: Dict, syms: seq<CryptoSymbol>) returns (res: Table)
    requires forall i | 0 <= i < |syms| :: syms[i].ToString() in data.entries
    requires Mergeable(Tables(data, Strings(syms)))
    ensures res == MergeAll(Tables(data, Strings(syms)))
  {
    ghost var ts := Tables(data, Strings(syms));
    res := data.entries[syms[0].ToString()];
    MergeFramesStart(data, syms);
    for i := 1 to |syms|
      invariant Mergeable(ts[..i]) && res == MergeAll(ts[..i])
    {
      MergeFramesStep(data, syms, i, res);
      res := OuterJoin(res, data.entries[syms[i].ToString()]);
    }
    assert ts[..|syms|] == ts;
  }

  /** `symbol_price_hist`, step by step. */
  method SymbolPriceHist(fetch: Request -> Reply, q: Query, symbols: Symbols)
    returns (r: Result<Output, Error>, sent: seq<Request>)
    requires FitsFor(fetch, q, symbols) && MergeReady(q, symbols)
    ensures Run(r, sent) == Hist(fetch, q, symbols)
  {
    if symbols.One? {
      var one;
      one, sent := SingleSymbolPriceHist(fetch, q, symbols.sym);
      if one.Err? {
        return Err(one.error), sent;
      }
      assert ReplyFits(fetch(RequestFor(q, symbols.sym)), q.(merge := false));
      var df := ReindexFrame(q, one.value);
      if df.Err? {
        return Err(df.error), sent;
      }
      return Ok(Single(df.value)), sent;
    }
    var syms := symbols.syms;
    var data;
    data, sent := CollectFrames(fetch, q, syms);
    if data.Err? {
      return Err(data.error), sent;
    }
    if !q.merge {
      return Ok(ByName(data.value)), sent;
    }
    if |syms| == 0 {
      return Err(IndexError), sent;
    }
    CollectMergeable(fetch, q, syms);
    var res := MergeFrames(data.value, syms);
    return Ok(Merged(res)), sent;
  }
}
