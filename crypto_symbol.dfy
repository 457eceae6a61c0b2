/** A trading symbol such as BTC/USD: a base currency and the currency it
    is quoted in, read from and written as "SYMBOL/PAIR". */
module CryptoSymbols {
  import opened Wrappers
  import opened Errors

  const Separator: char := '/'
  const FormatMessage := "String format must be 'SYMBOL/PAIR', e.g. 'BTC/USD'"

  /** The number of occurrences of `ch` in `s`. */
  function Count(s: string, ch: char): nat {
    if s == [] then 0 else (if s[0] == ch then 1 else 0) + Count(s[1..], ch)
  }

  /** Python's `s.split(sep)` for a one-character separator: the pieces
      between separators, empty pieces included. */
  function Split(s: string, sep: char): (parts: seq<string>)
    ensures |parts| == Count(s, sep) + 1
    ensures forall i | 0 <= i < |parts| :: sep !in parts[i]
  {
    if s == [] then [""]
    else
      var rest := Split(s[1..], sep);
      if s[0] == sep then [""] + rest
      else [[s[0]] + rest[0]] + rest[1..]
  }

  /** `sep.join(parts)`. */
  function Join(parts: seq<string>, sep: char): string
    requires |parts| >= 1
  {
    if |parts| == 1 then parts[0] else parts[0] + [sep] + Join(parts[1..], sep)
  }

  /** Splitting and joining on the same separator gives the string back. */
  lemma {:induction false} JoinSplit(s: string, sep: char)
    ensures Join(Split(s, sep), sep) == s
  {
    if s != [] {
      JoinSplit(s[1..], sep);
      var rest := Split(s[1..], sep);
      if s[0] != sep {
        if |rest| == 1 {
          assert Join(rest, sep) == rest[0];
        } else {
          assert Join(rest, sep) == rest[0] + [sep] + Join(rest[1..], sep);
          assert ([[s[0]] + rest[0]] + rest[1..])[1..] == rest[1..];
        }
      } else {
        assert ([""] + rest)[1..] == rest;
      }
    }
  }

  lemma {:induction false} CountAppend(a: string, b: string, ch: char)
    ensures Count(a + b, ch) == Count(a, ch) + Count(b, ch)
  {
    if a != [] {
      assert (a + b)[1..] == a[1..] + b;
      CountAppend(a[1..], b, ch);
    } else {
      assert a + b == b;
    }
  }

  lemma {:induction false} CountZero(s: string, ch: char)
    ensures Count(s, ch) == 0 <==> ch !in s
  {
    if s != [] {
      CountZero(s[1..], ch);
      assert s == [s[0]] + s[1..];
    }
  }

  /** A piece without separators followed by a separator splits off as
      the first part. */
  lemma {:induction false} SplitAt(a: string, b: string, sep: char)
    requires sep !in a
    ensures Split(a + [sep] + b, sep) == [a] + Split(b, sep)
  {
    if a == [] {
      assert a + [sep] + b == [sep] + b;
      assert ([sep] + b)[1..] == b;
    } else {
      assert (a + [sep] + b)[1..] == a[1..] + [sep] + b;
      SplitAt(a[1..], b, sep);
      assert [a[0]] + a[1..] == a;
    }
  }

  /** A string without separators is a single part. */
  lemma {:induction false} SplitNone(s: string, sep: char)
    requires sep !in s
    ensures Split(s, sep) == [s]
  {
    if s != [] {
      SplitNone(s[1..], sep);
      assert [s[0]] + s[1..] == s;
    }
  }

  datatype CryptoSymbol = CryptoSymbol(symbol: string, pair: string) {

    /** "SYMBOL/PAIR". */
    function ToString(): string {
      symbol + [Separator] + pair
    }

    /** Accepts exactly the strings with one '/', and keeps the two parts
        verbatim: no trimming, no case change, empty parts allowed. */
    static function FromString(s: string): (r: Result<CryptoSymbol, Error>)
      ensures r.Ok? <==> Count(s, Separator) == 1
      ensures r.Err? ==> r.error == FormatError(FormatMessage)
      ensures r.Ok? ==> Separator !in r.value.symbol && Separator !in r.value.pair
    {
      var parts := Split(s, Separator);
      if |parts| == 2 then Ok(CryptoSymbol(parts[0], parts[1]))
      else Err(FormatError(FormatMessage))
    }
  }

  /** What Python reports when the handler calls the caught exception. */
  const NotCallableMessage := "'ValueError' object is not callable"

  /** `from_string` as written: the handler calls the caught ValueError
      instance instead of raising a new one, so a malformed string fails
      with a TypeError and the format message never reaches the caller. */
  function FromStringAsWritten(s: string): (r: Result<CryptoSymbol, Error>)
    ensures r.Ok? <==> Count(s, Separator) == 1
    ensures r.Err? ==> r.error == TypeError(NotCallableMessage)
  {
    var parts := Split(s, Separator);
    if |parts| == 2 then Ok(CryptoSymbol(parts[0], parts[1]))
    else Err(TypeError(NotCallableMessage))
  }

  /** The code as written accepts the same strings as the intended parser
      and parses them alike, but on every malformed string it raises a
      different error, so the format message is lost. */
  lemma FromStringAsWrittenLosesMessage(s: string)
    ensures FromStringAsWritten(s).Ok? <==> CryptoSymbol.FromString(s).Ok?
    ensures FromStringAsWritten(s).Ok? ==> FromStringAsWritten(s) == CryptoSymbol.FromString(s)
    ensures FromStringAsWritten(s).Err? ==>
              && FromStringAsWritten(s).error == TypeError(NotCallableMessage)
              && CryptoSymbol.FromString(s).error == FormatError(FormatMessage)
              && FromStringAsWritten(s).error != CryptoSymbol.FromString(s).error
  {
  }

  /** A string without a separator, such as "BTCUSD", shows it. */
  lemma FromStringAsWrittenExample()
    ensures FromStringAsWritten("BTCUSD") == Err(TypeError(NotCallableMessage))
    ensures CryptoSymbol.FromString("BTCUSD") == Err(FormatError(FormatMessage))
  {
    CountZero("BTCUSD", Separator);
  }

  /** Formatting a parsed symbol gives back the string it was parsed from. */
  lemma ToStringFromString(s: string)
    requires CryptoSymbol.FromString(s).Ok?
    ensures CryptoSymbol.FromString(s).value.ToString() == s
  {
    var parts := Split(s, Separator);
    JoinSplit(s, Separator);
    assert Join(parts[1..], Separator) == parts[1];
  }

  /** Parsing a formatted symbol gives the symbol back exactly when neither
      part contains '/'. */
  lemma FromStringToString(c: CryptoSymbol)
    ensures CryptoSymbol.FromString(c.ToString()) == Ok(c)
            <==> Separator !in c.symbol && Separator !in c.pair
  {
    if Separator !in c.symbol && Separator !in c.pair {
      SplitAt(c.symbol, c.pair, Separator);
      SplitNone(c.pair, Separator);
    } else {
      CountAppend(c.symbol + [Separator], c.pair, Separator);
      CountAppend(c.symbol, [Separator], Separator);
      CountZero(c.symbol, Separator);
      CountZero(c.pair, Separator);
    }
  }

  /** The symbols of the self-test parse into their two parts. */
  lemma FromStringAccepts()
    ensures CryptoSymbol.FromString("BTC/USD") == Ok(CryptoSymbol("BTC", "USD"))
    ensures CryptoSymbol.FromString("ETH/BTC") == Ok(CryptoSymbol("ETH", "BTC"))
  {
    FromStringToString(CryptoSymbol("BTC", "USD"));
    FromStringToString(CryptoSymbol("ETH", "BTC"));
    assert CryptoSymbol("BTC", "USD").ToString() == "BTC/USD";
    assert CryptoSymbol("ETH", "BTC").ToString() == "ETH/BTC";
  }

  /** The parser lets empty parts through, and neither trims nor changes case. */
  lemma FromStringEdgeCases()
    ensures CryptoSymbol.FromString("/") == Ok(CryptoSymbol("", ""))
    ensures CryptoSymbol.FromString("btc /usd") == Ok(CryptoSymbol("btc ", "usd"))
  {
    FromStringToString(CryptoSymbol("", ""));
    FromStringToString(CryptoSymbol("btc ", "usd"));
    assert CryptoSymbol("", "").ToString() == "/";
    assert CryptoSymbol("btc ", "usd").ToString() == "btc /usd";
  }

  /** A string without a separator is rejected. */
  lemma FromStringRejectsNone()
    ensures CryptoSymbol.FromString("BTCUSD") == Err(FormatError(FormatMessage))
  {
    CountZero("BTCUSD", Separator);
  }

  /** A string with two separators is rejected. */
  lemma FromStringRejectsTwo()
    ensures CryptoSymbol.FromString("BTC/USD/EXTRA") == Err(FormatError(FormatMessage))
  {
    var btc, usd, extra := "BTC", "USD", "EXTRA";
    CountZero(btc, Separator);
    CountZero(usd, Separator);
    CountZero(extra, Separator);
    CountAppend(btc + [Separator], usd + [Separator] + extra, Separator);
    CountAppend(usd + [Separator], extra, Separator);
    CountAppend(btc, [Separator], Separator);
    CountAppend(usd, [Separator], Separator);
    assert "BTC/USD/EXTRA" == btc + [Separator] + (usd + [Separator] + extra);
  }
}
