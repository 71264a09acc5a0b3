/** The energy price announced by the chain: a comma-separated history of timestamp:price pairs. */
module EnergyPrices {

  import opened Options
  import opened Decimals

  const MAX_INT32 := 0x7fff_ffff
  type int32 = n: int | -MAX_INT32 - 1 <= n <= MAX_INT32

  const DEFAULT_ENERGY_UNIT_PRICE: int32 := 210

  /** The price is usable even with an error: it is the default then. */
  datatype Price = Price(value: int32, ok: bool)

  datatype Quote = Quote(timestamp: int, price: int32)

  /** strings.Split for a separator of one character. */
  function Split(s: string, sep: char): (parts: seq<string>)
    ensures |parts| > 0
  {
    if s == "" then [""]
    else
      var rest := Split(s[1..], sep);
      if s[0] == sep then [""] + rest else [[s[0]] + rest[0]] + rest[1..]
  }

  function Join(parts: seq<string>, sep: char): string
    requires |parts| > 0
  {
    if |parts| == 1 then parts[0] else parts[0] + [sep] + Join(parts[1..], sep)
  }

  function SignOf(s: string): (sign: string)
    ensures |sign| <= |s|
  {
    if s != "" && (s[0] == '+' || s[0] == '-') then [s[0]] else ""
  }

  /** strconv.ParseInt with base 10 and 32 bits. */
  function ParseInt32(s: string): Option<int32> {
    var sign := SignOf(s);
    var digits := s[|sign|..];
    if digits == "" || !AllDigits(digits) then None
    else
      var magnitude: int := Value(digits);
      var n := if sign == "-" then -magnitude else magnitude;
      if -MAX_INT32 - 1 <= n <= MAX_INT32 then Some(n) else None
  }

  function ParseLatestEnergyPrice(prices: string): Price {
    var list := Split(prices, ',');
    var parts := Split(list[|list| - 1], ':');
    if |parts| != 2 then Price(DEFAULT_ENERGY_UNIT_PRICE, false)
    else
      var price := ParseInt32(parts[1]);
      if price.None? then Price(DEFAULT_ENERGY_UNIT_PRICE, false) else Price(price.value, true)
  }

  function Magnitude(n: int): nat {
    if n < 0 then -n else n
  }

  function Print(n: int): string {
    (if n < 0 then "-" else "") + Digits(Magnitude(n))
  }

  function PrintQuote(q: Quote): string {
    Print(q.timestamp) + ":" + Print(q.price)
  }

  function PrintHistory(history: seq<Quote>): string
    requires |history| > 0
  {
    Join(seq(|history|, i requires 0 <= i < |history| => PrintQuote(history[i])), ',')
  }

  lemma {:induction false} SplitOfJoin(parts: seq<string>, sep: char)
    requires |parts| > 0 && forall p <- parts :: sep !in p
    ensures Split(Join(parts, sep), sep) == parts
  {
    if |parts| == 1 {
      SplitOfPlain(parts[0], sep);
    } else {
      forall p <- parts[1..] ensures sep !in p { assert p in parts; }
      SplitOfJoin(parts[1..], sep);
      SplitAtFirst(parts[0], Join(parts[1..], sep), sep);
      assert parts == [parts[0]] + parts[1..];
    }
  }

  lemma {:induction false} SplitOfPlain(s: string, sep: char)
    requires sep !in s
    ensures Split(s, sep) == [s]
  {
    if s != "" {
      assert s == [s[0]] + s[1..];
      SplitOfPlain(s[1..], sep);
    }
  }

  lemma {:induction false} SplitAtFirst(front: string, back: string, sep: char)
    requires sep !in front
    ensures Split(front + [sep] + back, sep) == [front] + Split(back, sep)
  {
    var s := front + [sep] + back;
    if front == "" {
      assert s[1..] == back;
    } else {
      assert s[1..] == front[1..] + [sep] + back;
      SplitAtFirst(front[1..], back, sep);
      assert s[0] == front[0] != sep;
      assert front == [front[0]] + front[1..];
      assert ([front[1..]] + Split(back, sep))[1..] == Split(back, sep);
    }
  }

  /** What Split gives is free of the separator and makes up the string again. */
  lemma {:induction false} JoinOfSplit(s: string, sep: char)
    ensures Join(Split(s, sep), sep) == s && forall p <- Split(s, sep) :: sep !in p
  {
    if s != "" {
      JoinOfSplit(s[1..], sep);
      var parts, rest := Split(s, sep), Split(s[1..], sep);
      if s[0] == sep {
        assert parts[1..] == rest;
      } else if |rest| > 1 {
        assert parts[1..] == rest[1..];
      }
    }
  }

  /** Only the text after the last separator counts. */
  lemma {:induction false} LastPart(front: string, last: string, sep: char)
    requires sep !in last
    ensures var parts := Split(front + [sep] + last, sep); |parts| > 1 && parts[|parts| - 1] == last
  {
    var s := front + [sep] + last;
    if front == "" {
      assert s[1..] == last;
      SplitOfPlain(last, sep);
    } else {
      assert s[1..] == front[1..] + [sep] + last;
      LastPart(front[1..], last, sep);
    }
  }

  lemma {:induction false} JoinEndsWithLast(parts: seq<string>, sep: char) returns (front: string)
    requires |parts| > 1
    ensures Join(parts, sep) == front + [sep] + parts[|parts| - 1]
  {
    if |parts| == 2 {
      front := parts[0];
    } else {
      var rest := JoinEndsWithLast(parts[1..], sep);
      front := parts[0] + [sep] + rest;
      assert front + [sep] + parts[|parts| - 1] == parts[0] + [sep] + (rest + [sep] + parts[|parts| - 1]);
    }
  }

  function Zeros(k: nat): string {
    seq(k, _ => '0')
  }

  lemma AppendDigit(n: nat, c: char)
    requires IsDigit(c)
    ensures n > 0 ==> Digits(n * 10 + DigitValue(c)) == Digits(n) + [c]
    ensures Digits(DigitValue(c)) == [c]
  {
    assert (n * 10 + DigitValue(c)) / 10 == n && (n * 10 + DigitValue(c)) % 10 == DigitValue(c);
  }

  /** A string of digits is some zeros and the usual numeral of its value. */
  lemma {:induction false} DigitsAreNumeral(s: string) returns (k: nat)
    requires s != "" && AllDigits(s)
    ensures s == Zeros(k) + Digits(Value(s))
  {
    var front, c := s[..|s| - 1], s[|s| - 1];
    assert s == front + [c];
    AppendDigit(Value(front), c);
    if front == "" {
      k := 0;
    } else {
      k := DigitsAreNumeral(front);
      if Value(front) == 0 {
        assert Zeros(k) + "0" == Zeros(k + 1);
        k := k + 1;
      }
    }
  }

  lemma {:induction false} ZerosDoNotCount(k: nat, n: nat)
    ensures AllDigits(Zeros(k) + Digits(n)) && Value(Zeros(k) + Digits(n)) == n
  {
    var s := Zeros(k) + Digits(n);
    assert s[..|s| - 1] == Zeros(k) + Digits(n)[..|Digits(n)| - 1];
    if n < 10 {
      assert s[..|s| - 1] == Zeros(k);
      ValueOfZeros(k);
    } else {
      assert Digits(n)[..|Digits(n)| - 1] == Digits(n / 10);
      ZerosDoNotCount(k, n / 10);
    }
  }

  lemma {:induction false} ValueOfZeros(k: nat)
    ensures Value(Zeros(k)) == 0
  {
    if k > 0 {
      assert Zeros(k)[..k - 1] == Zeros(k - 1);
      ValueOfZeros(k - 1);
    }
  }

  predicate SignFits(sign: string, n: int) {
    if sign == "-" then n <= 0 else (sign == "" || sign == "+") && n >= 0
  }

  predicate WrittenAs(s: string, n: int, sign: string, k: nat) {
    SignFits(sign, n) && s == sign + (Zeros(k) + Digits(Magnitude(n)))
  }

  /** The numerals of n: an optional sign, zeros, and the digits of its magnitude. */
  ghost predicate IsNumeral(s: string, n: int) {
    exists sign, k: nat :: WrittenAs(s, n, sign, k)
  }

  /** ParseInt32 reads exactly the numerals of the 32-bit integers. */
  lemma ParseIntIsExact(s: string, n: int32)
    ensures ParseInt32(s) == Some(n) <==> IsNumeral(s, n)
  {
    if sign, k: nat :| WrittenAs(s, n, sign, k) {
      NumeralIsParsed(s, n, sign, k);
    }
    if ParseInt32(s) == Some(n) {
      var sign := SignOf(s);
      var digits := s[|sign|..];
      var k := DigitsAreNumeral(digits);
      assert s == sign + digits;
      assert Value(digits) == Magnitude(n);
      assert WrittenAs(s, n, sign, k);
    }
  }

  lemma SignIsFound(sign: string, digits: string)
    requires (sign == "" || sign == "+" || sign == "-") && digits != "" && IsDigit(digits[0])
    ensures SignOf(sign + digits) == sign && (sign + digits)[|sign|..] == digits
  {
  }

  lemma NumeralIsParsed(s: string, n: int32, sign: string, k: nat)
    requires WrittenAs(s, n, sign, k)
    ensures ParseInt32(s) == Some(n)
  {
    var digits := Zeros(k) + Digits(Magnitude(n));
    ZerosDoNotCount(k, Magnitude(n));
    SignIsFound(sign, digits);
  }

  /** An independent reading of the announcement: after the last comma, if any, a colon-free stamp,
      a colon and the numeral of the price. */
  ghost predicate Announces(prices: string, front: string, stamp: string, numeral: string) {
    && prices == front + stamp + ":" + numeral
    && (front == "" || front[|front| - 1] == ',')
    && ',' !in stamp + numeral && ':' !in stamp + numeral
  }

  lemma AnnouncedPartsAreFound(prices: string, front: string, stamp: string, numeral: string)
    requires Announces(prices, front, stamp, numeral)
    ensures var list := Split(prices, ','); Split(list[|list| - 1], ':') == [stamp, numeral]
  {
    var last := stamp + ":" + numeral;
    assert prices == front + last;
    if front == "" {
      SplitOfPlain(last, ',');
    } else {
      assert front == front[..|front| - 1] + [','];
      LastPart(front[..|front| - 1], last, ',');
    }
    SplitAtFirst(stamp, numeral, ':');
    SplitOfPlain(numeral, ':');
  }

  lemma JoinOfTwo(parts: seq<string>, sep: char)
    requires |parts| == 2
    ensures Join(parts, sep) == parts[0] + [sep] + parts[1]
  {
    assert parts[1..] == [parts[1]];
  }

  lemma LastPartEnds(s: string, sep: char) returns (front: string)
    ensures var parts := Split(s, sep); var last := parts[|parts| - 1];
            s == front + last && sep !in last && (front == "" || front[|front| - 1] == sep)
  {
    var parts := Split(s, sep);
    JoinOfSplit(s, sep);
    assert parts[|parts| - 1] in parts;
    if |parts| == 1 {
      front := "";
    } else {
      var before := JoinEndsWithLast(parts, sep);
      front := before + [sep];
    }
  }

  lemma FoundPartsAreAnnounced(prices: string) returns (front: string)
    requires var list := Split(prices, ','); |Split(list[|list| - 1], ':')| == 2
    ensures var list := Split(prices, ','); var parts := Split(list[|list| - 1], ':');
            Announces(prices, front, parts[0], parts[1])
  {
    var list := Split(prices, ',');
    var last := list[|list| - 1];
    var parts := Split(last, ':');
    front := LastPartEnds(prices, ',');
    JoinOfSplit(last, ':');
    JoinOfTwo(parts, ':');
    PartsAreFree(last, parts[0], parts[1]);
    assert prices == front + parts[0] + ":" + parts[1];
  }

  lemma PartsAreFree(last: string, stamp: string, numeral: string)
    requires last == stamp + ":" + numeral && ',' !in last && ':' !in stamp && ':' !in numeral
    ensures ',' !in stamp + numeral && ':' !in stamp + numeral
  {
    forall c <- stamp + numeral ensures c in stamp || c in numeral {}
    forall c | c in stamp || c in numeral ensures c in last {}
  }

  /** A price is reported without an error exactly when the string announces it; any other string
      gives the default price and an error. */
  lemma PriceIsTheAnnounced(prices: string, price: int32)
    ensures ParseLatestEnergyPrice(prices) == Price(price, true)
            <==> exists front, stamp, numeral :: Announces(prices, front, stamp, numeral) && IsNumeral(numeral, price)
    ensures !ParseLatestEnergyPrice(prices).ok ==> ParseLatestEnergyPrice(prices).value == 210
  {
    if front, stamp, numeral :| Announces(prices, front, stamp, numeral) && IsNumeral(numeral, price) {
      AnnouncedPartsAreFound(prices, front, stamp, numeral);
      ParseIntIsExact(numeral, price);
    }
    if ParseLatestEnergyPrice(prices) == Price(price, true) {
      var list := Split(prices, ',');
      var parts := Split(list[|list| - 1], ':');
      var front := FoundPartsAreAnnounced(prices);
      ParseIntIsExact(parts[1], price);
      assert Announces(prices, front, parts[0], parts[1]) && IsNumeral(parts[1], price);
    }
  }

  lemma PrintIsPlain(n: int)
    ensures ',' !in Print(n) && ':' !in Print(n)
  {
    var digits := Digits(Magnitude(n));
    assert forall c :: c in digits ==> IsDigit(c);
    assert !IsDigit(',') && !IsDigit(':');
  }

  lemma PrintIsNumeral(n: int)
    ensures IsNumeral(Print(n), n)
  {
    var digits := Digits(Magnitude(n));
    assert Zeros(0) + digits == digits;
    assert WrittenAs(Print(n), n, if n < 0 then "-" else "", 0);
  }

  lemma JoinAnnouncesLast(parts: seq<string>, stamp: string, numeral: string) returns (front: string)
    requires |parts| > 0 && parts[|parts| - 1] == stamp + ":" + numeral
    requires ',' !in stamp + numeral && ':' !in stamp + numeral
    ensures Announces(Join(parts, ','), front, stamp, numeral)
  {
    var last := parts[|parts| - 1];
    if |parts| == 1 {
      front := "";
      assert Join(parts, ',') == front + last;
    } else {
      var before := JoinEndsWithLast(parts, ',');
      front := before + ",";
      assert Join(parts, ',') == front + last;
    }
    assert front + last == front + stamp + ":" + numeral;
  }

  /** A printed history is read back as its last price. */
  lemma LatestPriceIsRead(history: seq<Quote>)
    requires |history| > 0
    ensures ParseLatestEnergyPrice(PrintHistory(history)) == Price(history[|history| - 1].price, true)
  {
    var q := history[|history| - 1];
    var parts := seq(|history|, i requires 0 <= i < |history| => PrintQuote(history[i]));
    PrintIsPlain(q.timestamp);
    PrintIsPlain(q.price);
    PrintIsNumeral(q.price);
    var front := JoinAnnouncesLast(parts, Print(q.timestamp), Print(q.price));
    PriceIsTheAnnounced(PrintHistory(history), q.price);
  }
}
