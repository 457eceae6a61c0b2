/** What `symbol_price_hist` promises as a whole: which requests it sends
    and in what order, how the first failure ends it, and the shape of
    each of its three kinds of result. */
module PriceHistProperties {
  import opened Wrappers
  import opened Errors
  import opened Frames
  import opened Utils
  import opened CryptoSymbols
  import opened DataCollect

  /** The requests a call sends when nothing fails: one per symbol, in
      input order, and none at all when the unit is not recognised. */
  function Requests(q: Query, syms: seq<CryptoSymbol>): seq<Request> {
    match UnitUrl(q.unit)
    case None => []
    case Some(url) =>
      seq(|syms|, i requires 0 <= i < |syms| => Request(url, BuildParams(syms[i], q.limit, q.exchange)))
  }

  /** The request for `sym` was sent and its reply read into a table. */
  predicate Arrived(fetch: Request -> Reply, q: Query, sym: CryptoSymbol) {
    UnitUrl(q.unit).Some? && ReadReply(fetch(RequestFor(q, sym))).Ok?
  }

  /** The field names of the records in that reply. */
  function ReplyFields(fetch: Request -> Reply, q: Query, sym: CryptoSymbol): seq<Name>
    requires Arrived(fetch, q, sym)
  {
    fetch(RequestFor(q, sym)).body.data.value.fields
  }

  lemma RunsPrefix(fetch: Request -> Reply, q: Query, syms: seq<CryptoSymbol>, i: nat)
    requires Fits(fetch, q) && i <= |syms|
    ensures Runs(fetch, q, syms)[..i] == Runs(fetch, q, syms[..i])
  {
    assert forall j | 0 <= j < i :: syms[..i][j] == syms[j];
  }

  /** One symbol's fetch and shaping sends exactly that symbol's request. */
  lemma FetchPreparedSent(fetch: Request -> Reply, q: Query, sym: CryptoSymbol)
    requires Fits(fetch, q)
    ensures FetchPrepared(fetch, q, sym).sent == Requests(q, [sym])
  {
  }

  /** Together, the per-symbol runs send the requests of Requests. */
  lemma {:induction false} AllSentRuns(fetch: Request -> Reply, q: Query, syms: seq<CryptoSymbol>)
    requires Fits(fetch, q)
    ensures AllSent(Runs(fetch, q, syms)) == Requests(q, syms)
    decreases |syms|
  {
    if syms != [] {
      var n := |syms| - 1;
      var runs := Runs(fetch, q, syms);
      RunsPrefix(fetch, q, syms, n);
      AllSentRuns(fetch, q, syms[..n]);
      FetchPreparedSent(fetch, q, syms[n]);
      assert runs[n] == FetchPrepared(fetch, q, syms[n]);
      RequestsAppend(q, syms[..n], syms[n]);
      assert syms[..n] + [syms[n]] == syms;
    }
  }

  lemma RequestsAppend(q: Query, syms: seq<CryptoSymbol>, sym: CryptoSymbol)
    ensures Requests(q, syms + [sym]) == Requests(q, syms) + Requests(q, [sym])
  {
  }

  /** An unrecognised unit is rejected before any request is sent, for a
      single symbol and for a non-empty list alike. */
  lemma HistBadUnit(fetch: Request -> Reply, q: Query, symbols: Symbols)
    requires FitsFor(fetch, q, symbols) && MergeReady(q, symbols) && UnitUrl(q.unit).None?
    ensures Hist(fetch, q, symbols).sent == []
    ensures symbols.One? || symbols.syms != [] ==>
              Hist(fetch, q, symbols).result == Err(UnitError(UnitMessage))
  {
    if symbols.Many? {
      var syms := symbols.syms;
      var keys, runs := Strings(syms), Runs(fetch, q, syms);
      FoldSent(keys, runs);
      AllSentRuns(fetch, q, syms);
      if syms != [] {
        assert runs[0] == FetchPrepared(fetch, q, syms[0]);
        FoldFirstError(keys, runs, 0);
      }
    }
  }

  /** The requests go out one per symbol in input order; a call that
      fails stops part-way through them, a successful one sends them all. */
  lemma HistRequests(fetch: Request -> Reply, q: Query, symbols: Symbols)
    requires FitsFor(fetch, q, symbols) && MergeReady(q, symbols)
    ensures symbols.One? ==> Hist(fetch, q, symbols).sent == Requests(q, [symbols.sym])
    ensures symbols.Many? ==>
              && Hist(fetch, q, symbols).sent <= Requests(q, symbols.syms)
              && (Hist(fetch, q, symbols).result.Ok? ==> Hist(fetch, q, symbols).sent == Requests(q, symbols.syms))
  {
    if symbols.Many? {
      var syms := symbols.syms;
      FoldSent(Strings(syms), Runs(fetch, q, syms));
      AllSentRuns(fetch, q, syms);
    }
  }

  /** The first symbol whose fetch or shaping fails ends the whole call
      with its error; the symbols after it are never requested. */
  lemma HistFirstError(fetch: Request -> Reply, q: Query, syms: seq<CryptoSymbol>, i: nat)
    requires Fits(fetch, q) && MergeReady(q, Many(syms)) && i < |syms|
    requires forall j | 0 <= j < i :: FetchPrepared(fetch, q, syms[j]).result.Ok?
    requires FetchPrepared(fetch, q, syms[i]).result.Err?
    ensures Hist(fetch, q, Many(syms)).result == Err(FetchPrepared(fetch, q, syms[i]).result.error)
    ensures Hist(fetch, q, Many(syms)).sent == Requests(q, syms[..i + 1])
  {
    CollectFirstError(fetch, q, syms, i);
  }

  lemma CollectFirstError(fetch: Request -> Reply, q: Query, syms: seq<CryptoSymbol>, i: nat)
    requires Fits(fetch, q) && i < |syms|
    requires forall j | 0 <= j < i :: FetchPrepared(fetch, q, syms[j]).result.Ok?
    requires FetchPrepared(fetch, q, syms[i]).result.Err?
    ensures Collect(fetch, q, syms) ==
              Run(Err(FetchPrepared(fetch, q, syms[i]).result.error), Requests(q, syms[..i + 1]))
  {
    var keys, runs := Strings(syms), Runs(fetch, q, syms);
    assert forall j | 0 <= j <= i :: runs[j] == FetchPrepared(fetch, q, syms[j]);
    FoldFirstError(keys, runs, i);
    RunsPrefix(fetch, q, syms, i + 1);
    AllSentRuns(fetch, q, syms[..i + 1]);
  }

  /** A failed reply for a single symbol (an HTTP error status, an API
      error, a body without data, or no time column) is the call's error. */
  lemma HistReplyError(fetch: Request -> Reply, q: Query, sym: CryptoSymbol)
    requires FitsFor(fetch, q, One(sym)) && UnitUrl(q.unit).Some?
    requires ReadReply(fetch(RequestFor(q, sym))).Err?
    ensures Hist(fetch, q, One(sym)) ==
              Run(Err(ReadReply(fetch(RequestFor(q, sym))).error), [RequestFor(q, sym)])
  {
  }

  /** An empty list: nothing is sent; without merging the result is an
      empty dictionary, with merging there is no first table to start from. */
  lemma HistEmpty(fetch: Request -> Reply, q: Query)
    requires Fits(fetch, q)
    ensures !q.merge ==> Hist(fetch, q, Many([])) == Run(Ok(ByName(Dict([], map[]))), [])
    ensures q.merge ==> Hist(fetch, q, Many([])) == Run(Err(IndexError), [])
  {
    assert Runs(fetch, q, []) == [];
  }

  /** A single symbol: the table of its reply, re-indexed by the index
      column unless that is "", which must then exist; `merge` plays no part. */
  lemma HistSingle(fetch: Request -> Reply, q: Query, sym: CryptoSymbol)
    requires FitsFor(fetch, q, One(sym)) && UnitUrl(q.unit).Some?
    requires ReadReply(fetch(RequestFor(q, sym))).Ok?
    ensures var t0 := ReadReply(fetch(RequestFor(q, sym))).value;
            var h := Hist(fetch, q, One(sym));
            && h.sent == [RequestFor(q, sym)]
            && (h.result.Ok? <==> q.index == "" || q.index in Names(t0.columns))
            && (h.result.Err? ==> h.result.error == KeyError(q.index))
            && (h.result.Ok? ==>
                  && h.result.value.Single?
                  && Valid(h.result.value.table)
                  && h.result.value.table.index == IndexName(q)
                  && (q.index == "" ==> h.result.value.table == t0)
                  && (q.index != "" ==> q.index !in Names(h.result.value.table.columns)))
    ensures var t0 := ReadReply(fetch(RequestFor(q, sym))).value;
            var h := Hist(fetch, q, One(sym));
            h.result.Ok? && q.index != "" ==> h.result.value.table == SetIndex(t0, q.index).value
  {
    assert ReplyFits(fetch(RequestFor(q, sym)), q.(merge := false));
  }

  /** Without merging: a dictionary with one entry per distinct symbol
      string, in order of first appearance; each entry is that symbol's
      shaped table (the last one when a symbol repeats). */
  lemma HistByName(fetch: Request -> Reply, q: Query, syms: seq<CryptoSymbol>)
    requires Fits(fetch, q) && !q.merge
    requires Hist(fetch, q, Many(syms)).result.Ok?
    ensures Hist(fetch, q, Many(syms)).result.value.ByName?
    ensures var d := Hist(fetch, q, Many(syms)).result.value.dict;
            && d.order == FirstOccurrences(Strings(syms))
            && (forall k :: k in d.entries <==> k in d.order)
            && d.entries == Values(Strings(syms), Runs(fetch, q, syms))
            && (forall k | k in d.entries :: Prepared(q, k, d.entries[k]))
            && forall i | 0 <= i < |syms| :: FetchPrepared(fetch, q, syms[i]).result.Ok?
  {
    var keys, runs := Strings(syms), Runs(fetch, q, syms);
    RunsPrepared(fetch, q, syms);
    FoldEntries(q, keys, runs);
    FoldOrder(keys, runs);
    FoldValues(keys, runs);
    FoldSent(keys, runs);
    assert forall i | 0 <= i < |syms| :: runs[i] == FetchPrepared(fetch, q, syms[i]);
  }

  /** Without merging and with distinct symbols, each symbol's table is
      found under its own string, in input order. */
  lemma HistByNameDistinct(fetch: Request -> Reply, q: Query, syms: seq<CryptoSymbol>)
    requires Fits(fetch, q) && !q.merge && Distinct(Strings(syms))
    requires Hist(fetch, q, Many(syms)).result.Ok?
    ensures var d := Hist(fetch, q, Many(syms)).result.value.dict;
            && d.order == Strings(syms)
            && forall i | 0 <= i < |syms| ::
                 && FetchPrepared(fetch, q, syms[i]).result.Ok?
                 && syms[i].ToString() in d.entries
                 && d.entries[syms[i].ToString()] == FetchPrepared(fetch, q, syms[i]).result.value
  {
    var keys, runs := Strings(syms), Runs(fetch, q, syms);
    FoldDistinct(keys, runs);
    assert forall i | 0 <= i < |syms| :: runs[i] == FetchPrepared(fetch, q, syms[i]);
  }

  /** The shaped tables of the symbols, in input order. */
  ghost function Shaped(fetch: Request -> Reply, q: Query, syms: seq<CryptoSymbol>): (ts: seq<Table>)
    requires Fits(fetch, q)
    requires forall i | 0 <= i < |syms| :: FetchPrepared(fetch, q, syms[i]).result.Ok?
    ensures |ts| == |syms|
  {
    seq(|syms|, i requires 0 <= i < |syms| => FetchPrepared(fetch, q, syms[i]).result.value)
  }

  /** With distinct symbols, a successful collection holds every
      symbol's shaped table under its string. */
  lemma CollectShaped(fetch: Request -> Reply, q: Query, syms: seq<CryptoSymbol>)
    requires Fits(fetch, q) && Distinct(Strings(syms))
    requires Collect(fetch, q, syms).result.Ok?
    ensures forall i | 0 <= i < |syms| :: FetchPrepared(fetch, q, syms[i]).result.Ok?
    ensures var d := Collect(fetch, q, syms).result.value;
            && (forall i | 0 <= i < |syms| :: Strings(syms)[i] in d.entries)
            && Tables(d, Strings(syms)) == Shaped(fetch, q, syms)
  {
    var keys, runs := Strings(syms), Runs(fetch, q, syms);
    FoldDistinct(keys, runs);
    assert forall i | 0 <= i < |syms| :: runs[i] == FetchPrepared(fetch, q, syms[i]);
  }

  /** When merging, the labels of each symbol's shaped table are the
      fields of its reply other than the index, in order, each renamed
      "{symbol}_{field}"; so every label carries its symbol's prefix. */
  lemma ShapedLabels(fetch: Request -> Reply, q: Query, syms: seq<CryptoSymbol>)
    requires Fits(fetch, q) && q.merge
    requires forall i | 0 <= i < |syms| :: FetchPrepared(fetch, q, syms[i]).result.Ok?
    ensures var ts := Shaped(fetch, q, syms);
            forall i | 0 <= i < |ts| ::
              && Arrived(fetch, q, syms[i])
              && Names(ts[i].columns) == PrefixNames(syms[i].ToString(), DataLabels(q, ReplyFields(fetch, q, syms[i])))
    ensures var ts := Shaped(fetch, q, syms);
            forall i, c | 0 <= i < |ts| && 0 <= c < |ts[i].columns| ::
              Tagged(ts[i].columns[c].name, syms[i].ToString())
  {
    var ts := Shaped(fetch, q, syms);
    forall i | 0 <= i < |ts|
      ensures Prepared(q, syms[i].ToString(), ts[i])
      ensures Arrived(fetch, q, syms[i])
      ensures Names(ts[i].columns) == PrefixNames(syms[i].ToString(), DataLabels(q, ReplyFields(fetch, q, syms[i])))
    {
      assert ts[i] == FetchPrepared(fetch, q, syms[i]).result.value;
      FetchPreparedLabels(fetch, q, syms[i]);
    }
  }

  /** The labels of one symbol's shaped table, when merging. */
  lemma FetchPreparedLabels(fetch: Request -> Reply, q: Query, sym: CryptoSymbol)
    requires Fits(fetch, q) && q.merge && FetchPrepared(fetch, q, sym).result.Ok?
    ensures Arrived(fetch, q, sym)
    ensures Names(FetchPrepared(fetch, q, sym).result.value.columns) ==
              PrefixNames(sym.ToString(), DataLabels(q, ReplyFields(fetch, q, sym)))
  {
    FetchPreparedReply(fetch, q, sym);
    var t0 := ReadReply(fetch(RequestFor(q, sym))).value;
    PrepareTable(q, sym.ToString(), t0);
  }

  /** With merging: one table holding every symbol's columns in input
      order, each label prefixed with its symbol, over the union of all
      rows, with a missing value where a symbol has no such row. */
  lemma HistMerged(fetch: Request -> Reply, q: Query, syms: seq<CryptoSymbol>)
    requires Fits(fetch, q) && q.merge && Distinct(Strings(syms))
    requires Hist(fetch, q, Many(syms)).result.Ok?
    ensures syms != [] && Hist(fetch, q, Many(syms)).result.value.Merged?
    ensures forall i | 0 <= i < |syms| :: FetchPrepared(fetch, q, syms[i]).result.Ok?
    ensures var t, ts := Hist(fetch, q, Many(syms)).result.value.table, Shaped(fetch, q, syms);
            && Valid(t)
            && t.index == IndexName(q)
            && t.keys == UnionKeys(ts)
            && t.columns == PadAll(AllColumns(ts), UnionKeys(ts))
            && |t.columns| == Width(ts)
            && (forall i, c | 0 <= i < |ts| && 0 <= c < |ts[i].columns| ::
                  Tagged(ts[i].columns[c].name, syms[i].ToString()))
            && (forall i | 0 <= i < |ts| ::
                  && Arrived(fetch, q, syms[i])
                  && Names(ts[i].columns) ==
                       PrefixNames(syms[i].ToString(), DataLabels(q, ReplyFields(fetch, q, syms[i]))))
  {
    CollectShaped(fetch, q, syms);
    CollectMergeable(fetch, q, syms);
    var ts := Shaped(fetch, q, syms);
    MergeAllColumns(ts);
    AllNamesWidth(ts);
    ShapedLabels(fetch, q, syms);
    assert Prepared(q, syms[0].ToString(), ts[0]) by {
      assert ts[0] == FetchPrepared(fetch, q, syms[0]).result.value;
    }
  }
}
