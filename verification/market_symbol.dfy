/**
 * The market symbol value type (custom_components/cryptocom/market_symbol.py):
 * a trading pair such as BTC/USD, parsed from configuration and rendered as a
 * lower-case key, as the exchange's wire form and as a display unit.
 */
module MarketSymbols {
  import opened Wrappers
  import opened PyStrings

  /** The euro sign, U+20AC. */
  const EuroSign: string := "\U{20AC}"

  /** True when `s` holds neither of the two accepted separators. */
  predicate NoSeparator(s: string) {
    '/' !in s && '_' !in s
  }

  predicate IsSeparator(c: char) {
    c == '/' || c == '_'
  }

  /** An immutable pair of currency codes, case kept as given. */
  datatype MarketSymbol = MarketSymbol(base: string, quote: string) {

    /** The identity key: "{base}_{quote}", lower-cased. */
    function Name(): (r: string)
      ensures |r| == |base| + 1 + |quote| && r[|base|] == '_'
    {
      Lower(base + "_" + quote)
    }

    /** The exchange wire form "{base}/{quote}", case preserved. */
    function CcxtSymbol(): (r: string)
      ensures |r| == |base| + 1 + |quote| && r[|base|] == '/'
      ensures r[..|base|] == base && r[|base| + 1..] == quote
    {
      base + "/" + quote
    }

    /** "$" for a USD quote, the euro sign for a EUR quote, otherwise the quote itself. */
    function UnitOfMeasurement(): string {
      if quote == "USD" then "$"
      else if quote == "EUR" then EuroSign
      else quote
    }
  }

  /**
   * `try_from_string`: turn every '_' into '/', split on '/', and keep the first
   * two pieces. With no separator there is no second piece and the source's
   * index lookup fails, which is the `None` here.
   */
  function TryFromString(data: string): (r: Option<MarketSymbol>)
    ensures r.None? <==> NoSeparator(data)
    ensures r.Some? ==> NoSeparator(r.value.base) && NoSeparator(r.value.quote)
  {
    PiecesOfNormalized(data);
    var parts := Split(Replace(data, '_', '/'), '/');
    if |parts| < 2 then None else Some(MarketSymbol(parts[0], parts[1]))
  }

  /** Splitting the normalized string gives two pieces exactly when a separator occurs, and no piece holds one. */
  lemma PiecesOfNormalized(data: string)
    ensures |Split(Replace(data, '_', '/'), '/')| >= 2 <==> !NoSeparator(data)
    ensures forall k :: 0 <= k < |Split(Replace(data, '_', '/'), '/')| ==> NoSeparator(Split(Replace(data, '_', '/'), '/')[k])
  {
    var normalized := Replace(data, '_', '/');
    var parts := Split(normalized, '/');
    SplitSeveralIff(normalized, '/');
    ReplaceRemovesFrom(data, '_', '/');
    assert '/' in normalized <==> !NoSeparator(data) by {
      if '/' in normalized {
        var i :| 0 <= i < |normalized| && normalized[i] == '/';
        assert data[i] in data;
      }
      if '/' in data {
        var i :| 0 <= i < |data| && data[i] == '/';
        assert normalized[i] == '/';
      }
      if '_' in data {
        var i :| 0 <= i < |data| && data[i] == '_';
        assert normalized[i] == '/';
      }
    }
    forall k | 0 <= k < |parts| ensures NoSeparator(parts[k]) {
      SplitPieceCharsIn(normalized, '/', k);
    }
  }

  /** Every character of a piece of `s.split(sep)` is a character of `s`. */
  lemma {:induction false} SplitPieceCharsIn(s: string, sep: char, k: nat)
    requires k < |Split(s, sep)|
    ensures forall c :: c in Split(s, sep)[k] ==> c in s
    decreases |s|
  {
    if |s| > 0 {
      var rest := Split(s[1..], sep);
      assert s == [s[0]] + s[1..];
      if s[0] == sep {
        if k > 0 { SplitPieceCharsIn(s[1..], sep, k - 1); }
      } else {
        if k == 0 {
          SplitPieceCharsIn(s[1..], sep, 0);
        } else {
          SplitPieceCharsIn(s[1..], sep, k);
        }
      }
    }
  }

  /** The two separators are interchangeable: strings that differ only in which one they use parse alike. */
  lemma SeparatorsInterchangeable(s: string, t: string)
    requires |s| == |t|
    requires forall i :: 0 <= i < |s| ==> s[i] == t[i] || (IsSeparator(s[i]) && IsSeparator(t[i]))
    ensures TryFromString(s) == TryFromString(t)
  {
    assert Replace(s, '_', '/') == Replace(t, '_', '/');
  }

  /**
   * With separator-free parts, the first two parts are the symbol whichever
   * separators are used; anything after a second separator is discarded.
   */
  lemma ParseFirstTwoParts(base: string, sep1: char, quote: string, sep2: char, rest: string)
    requires NoSeparator(base) && NoSeparator(quote)
    requires IsSeparator(sep1) && IsSeparator(sep2)
    ensures TryFromString(base + [sep1] + quote + [sep2] + rest) == Some(MarketSymbol(base, quote))
  {
    var data := base + [sep1] + quote + [sep2] + rest;
    var tail := Replace(rest, '_', '/');
    calc {
      Replace(data, '_', '/');
      { ReplaceConcat(base + [sep1] + quote + [sep2], rest, '_', '/');
        ReplaceConcat(base + [sep1] + quote, [sep2], '_', '/');
        ReplaceConcat(base + [sep1], quote, '_', '/');
        ReplaceConcat(base, [sep1], '_', '/');
        ReplaceAbsent(base, '_', '/');
        ReplaceAbsent(quote, '_', '/'); }
      base + "/" + quote + "/" + tail;
    }
    SplitFirstPiece(base, '/', quote + "/" + tail);
    SplitFirstPiece(quote, '/', tail);
    assert base + "/" + quote + "/" + tail == base + "/" + (quote + "/" + tail);
  }

  /** With separator-free parts and exactly one separator, parsing gives exactly those parts. */
  lemma ParseTwoParts(base: string, sep: char, quote: string)
    requires NoSeparator(base) && NoSeparator(quote)
    requires IsSeparator(sep)
    ensures TryFromString(base + [sep] + quote) == Some(MarketSymbol(base, quote))
  {
    var data := base + [sep] + quote;
    ReplaceConcat(base + [sep], quote, '_', '/');
    ReplaceConcat(base, [sep], '_', '/');
    ReplaceAbsent(base, '_', '/');
    ReplaceAbsent(quote, '_', '/');
    assert Replace(data, '_', '/') == base + "/" + quote;
    SplitFirstPiece(base, '/', quote);
    SplitNoSep(quote, '/');
  }

  /** Round trip: parsing the wire form gives the symbol back when its codes hold no separator. */
  lemma ParseCcxtSymbol(s: MarketSymbol)
    requires NoSeparator(s.base) && NoSeparator(s.quote)
    ensures TryFromString(s.CcxtSymbol()) == Some(s)
  {
    ParseTwoParts(s.base, '/', s.quote);
  }

  /** The key is the lower-cased base and quote joined by '_', and holds no upper-case letter. */
  lemma NameParts(s: MarketSymbol)
    ensures s.Name() == Lower(s.base) + "_" + Lower(s.quote)
    ensures forall i :: 0 <= i < |s.Name()| ==> !IsUpper(s.Name()[i])
  {
    LowerConcat(s.base + "_", s.quote);
    LowerConcat(s.base, "_");
  }

  /** The display unit depends on the quote only. */
  lemma UnitDependsOnQuote(s: MarketSymbol, t: MarketSymbol)
    requires s.quote == t.quote
    ensures s.UnitOfMeasurement() == t.UnitOfMeasurement()
  {
  }

  /** Parsing as the unit tests pin it down: both separators are accepted. */
  lemma ParseExamples()
    ensures TryFromString("BTC/USD") == Some(MarketSymbol("BTC", "USD"))
    ensures TryFromString("ETH_USDT") == Some(MarketSymbol("ETH", "USDT"))
  {
    ParseTwoParts("BTC", '/', "USD");
    assert "BTC" + "/" + "USD" == "BTC/USD";
    ParseTwoParts("ETH", '_', "USDT");
    assert "ETH" + "_" + "USDT" == "ETH_USDT";
  }

  /** A string without a separator does not parse; a lone separator parses to two empty codes. */
  lemma ParseEdgeExamples()
    ensures TryFromString("BTCUSD") == None
    ensures TryFromString("/") == Some(MarketSymbol("", ""))
  {
    assert NoSeparator("BTCUSD");
    ParseTwoParts("", '/', "");
    assert "" + "/" + "" == "/";
  }

  /** The derived strings as the unit tests pin them down. */
  lemma RenderExamples()
    ensures MarketSymbol("BTC", "USD").Name() == "btc_usd"
    ensures MarketSymbol("BTC", "USD").CcxtSymbol() == "BTC/USD"
    ensures MarketSymbol("BTC", "USD").UnitOfMeasurement() == "$"
    ensures MarketSymbol("BTC", "EUR").UnitOfMeasurement() == EuroSign
    ensures MarketSymbol("BTC", "USDT").UnitOfMeasurement() == "USDT"
  {
    var n := MarketSymbol("BTC", "USD").Name();
    assert n == Lower("BTC_USD");
    assert n[0] == 'b' && n[1] == 't' && n[2] == 'c' && n[3] == '_' && n[4] == 'u' && n[5] == 's' && n[6] == 'd';
  }
}
