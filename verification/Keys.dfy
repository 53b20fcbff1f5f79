/** Decimal printing and the Redis/OpenSearch keys built from it (services/internal/platform/redis.go).

    A Go string is modelled as the sequence of its bytes, each byte written as one `char`. */
module Keys {
  import opened Wrappers

  const MIN_INT64: int := -0x8000_0000_0000_0000
  const MAX_INT64: int := 0x7fff_ffff_ffff_ffff

  type int64 = v: int | MIN_INT64 <= v <= MAX_INT64

  // ---------- Go's int64 arithmetic ----------

  /** Unary minus on int64: the minimum has no counterpart and wraps to itself. */
  function Negate(v: int64): int64 {
    if v == MIN_INT64 then MIN_INT64 else -v
  }

  /** Go's `/ 10` and `% 10` truncate towards zero. */
  function Quot10(v: int): int {
    if v >= 0 then v / 10 else -((-v) / 10)
  }

  function Rem10(v: int): int {
    if v >= 0 then v % 10 else -((-v) % 10)
  }

  /** `byte('0' + d)` for a remainder; a negative remainder lands below '0'. */
  function DigitByte(d: int): char
    requires -9 <= d <= 9
  {
    (('0' as int) + d) as char
  }

  function Pow10(n: nat): (r: int)
    ensures r >= 1
  {
    if n == 0 then 1 else 10 * Pow10(n - 1)
  }

  // ---------- what the printer is meant to print ----------

  function Digits(n: nat): string {
    if n < 10 then [DigitByte(n)] else Digits(n / 10) + [DigitByte(n % 10)]
  }

  /** `fmt.Sprintf("%d", v)`, `strconv.FormatInt(v, 10)` and `strconv.Itoa(v)`. */
  function Decimal(v: int): string {
    if v < 0 then "-" + Digits(-v) else Digits(v)
  }

  predicate IsDigit(c: char) {
    '0' <= c <= '9'
  }

  predicate AllDigits(s: string) {
    forall i :: 0 <= i < |s| ==> IsDigit(s[i])
  }

  function DigitsValue(s: string): (r: int)
    requires AllDigits(s)
    ensures r >= 0
  {
    if |s| == 0 then 0
    else 10 * DigitsValue(s[..|s| - 1]) + ((s[|s| - 1] as int) - ('0' as int))
  }

  /** `strconv.ParseInt(s, 10, 64)`: an optional sign, at least one digit, nothing else, and no overflow. */
  function ParseInt(s: string): (r: Option<int>)
    ensures r.Some? ==> MIN_INT64 <= r.value <= MAX_INT64
  {
    if s == "" then None
    else
      var signed := s[0] == '-' || s[0] == '+';
      var body := if signed then s[1..] else s;
      if body == "" || !AllDigits(body) then None
      else
        var v := if s[0] == '-' then -DigitsValue(body) else DigitsValue(body);
        if MIN_INT64 <= v <= MAX_INT64 then Some(v) else None
  }

  // ---------- itoa ----------

  /** The digit loop of `itoa` on a possibly negative value, most significant byte first. */
  function RawDigits(v: int): string
    decreases if v < 0 then -v else v
  {
    if -10 < v < 10 then [DigitByte(v)] else RawDigits(Quot10(v)) + [DigitByte(Rem10(v))]
  }

  /** The string `itoa` returns, for every int64. */
  function ItoaText(v: int64): string {
    if v < 0 then "-" + RawDigits(Negate(v)) else RawDigits(v)
  }

  /** The digit loop: fills `buf` from the back and returns where the text starts. */
  method FillDigits(value: int, buf: array<char>) returns (i: nat)
    requires buf.Length == 20 && |RawDigits(value)| <= 19
    modifies buf
    ensures 1 <= i <= 20 && buf[i..] == RawDigits(value)
  {
    var v := value;
    i := buf.Length;
    while true
      invariant |RawDigits(v)| < i <= 20
      invariant RawDigits(value) == RawDigits(v) + buf[i..]
      decreases |RawDigits(v)|
    {
      ghost var text := buf[i..];
      RawDigitsStep(v);
      i := i - 1;
      buf[i] := DigitByte(Rem10(v));
      assert buf[i..] == [buf[i]] + text;
      v := Quot10(v);
      if v == 0 {
        break;
      }
    }
  }

  /** `itoa` */
  method Itoa(value: int64) returns (s: string)
    ensures s == ItoaText(value)
    ensures |s| <= 20
  {
    var v := value;
    var buf := new char[20];
    var neg := v < 0;
    if neg {
      v := Negate(v);
    }
    FitsNineteen(v);
    var i := FillDigits(v, buf);
    ghost var text := buf[i..];
    if neg {
      i := i - 1;
      buf[i] := '-';
      assert buf[i..] == ['-'] + text;
    }
    s := buf[i..];
  }

  lemma RawDigitsStep(v: int)
    ensures Quot10(v) == 0 ==> RawDigits(v) == [DigitByte(Rem10(v))]
    ensures Quot10(v) != 0 ==> RawDigits(v) == RawDigits(Quot10(v)) + [DigitByte(Rem10(v))]
  {
  }

  /** Every int64 has at most 19 digits, so sign and digits fit the buffer. */
  lemma FitsNineteen(v: int64)
    ensures |RawDigits(v)| <= 19
  {
    Pow10Of19();
    DigitCount(v, 19);
  }

  lemma {:induction false} DigitCount(v: int, n: nat)
    requires n >= 1 && -Pow10(n) < v < Pow10(n)
    ensures |RawDigits(v)| <= n
    decreases n
  {
    if n > 1 {
      QuotShrinks(v, n);
      DigitCount(Quot10(v), n - 1);
    } else {
      assert Pow10(1) == 10;
    }
  }

  lemma Pow10Of19()
    ensures Pow10(19) == 10_000_000_000_000_000_000
  {
    assert Pow10(4) == 10_000;
    assert Pow10(8) == 100_000_000;
    assert Pow10(12) == 1_000_000_000_000;
    assert Pow10(16) == 10_000_000_000_000_000;
  }

  lemma QuotShrinks(v: int, n: nat)
    requires n >= 1 && -Pow10(n) < v < Pow10(n)
    ensures -Pow10(n - 1) < Quot10(v) < Pow10(n - 1)
  {
    assert Pow10(n) == 10 * Pow10(n - 1);
  }

  // ---------- the printer and the parser agree, except at the minimum ----------

  lemma {:induction false} RawDigitsOfNat(n: nat)
    ensures RawDigits(n) == Digits(n)
  {
    if n >= 10 {
      RawDigitsOfNat(n / 10);
    }
  }

  lemma {:induction false} DigitsRoundTrip(n: nat)
    ensures |Digits(n)| >= 1 && AllDigits(Digits(n)) && DigitsValue(Digits(n)) == n
  {
    if n >= 10 {
      DigitsRoundTrip(n / 10);
      assert Digits(n)[..|Digits(n)| - 1] == Digits(n / 10);
    }
  }

  /** `ParseInt` inverts the standard library's decimal printers on every int64. */
  lemma ParseDecimal(v: int64)
    ensures ParseInt(Decimal(v)) == Some(v)
  {
    if v < 0 {
      var n: nat := -(v as int);
      DigitsRoundTrip(n);
      assert Decimal(v)[1..] == Digits(n);
    } else {
      DigitsRoundTrip(v);
      assert IsDigit(Digits(v)[0]);
    }
  }

  lemma ItoaIsDecimal(v: int64)
    requires v != MIN_INT64
    ensures ItoaText(v) == Decimal(v)
  {
    var n: nat := if v < 0 then -(v as int) else v;
    RawDigitsOfNat(n);
  }

  /** Digits taken from a negative value are no digits: the parser refuses them. */
  lemma MisprintIsNoNumber(v: int)
    requires v < 0 && Rem10(v) != 0
    ensures ParseInt("-" + RawDigits(v)) == None
  {
    var body := RawDigits(v);
    RawDigitsLast(v);
    assert !IsDigit(body[|body| - 1]);
    assert ("-" + body)[1..] == body;
  }

  lemma {:induction false} RawDigitsLast(v: int)
    ensures |RawDigits(v)| >= 1
    ensures RawDigits(v)[|RawDigits(v)| - 1] == DigitByte(Rem10(v))
  {
  }

  /** Every int64 is printed as a text that parses back to it, except the minimum, whose
      printed text is not a number at all. */
  lemma ItoaRoundTrip(v: int64)
    ensures ParseInt(ItoaText(v)) == Some(v) <==> v != MIN_INT64
    ensures v == MIN_INT64 ==> ParseInt(ItoaText(v)) == None
  {
    if v == MIN_INT64 {
      MisprintIsNoNumber(v);
    } else {
      ItoaIsDecimal(v);
      ParseDecimal(v);
    }
  }

  // ---------- keys ----------

  const FLEET_INDEX_KEY := "fleet:vins"

  function FleetKey(vin: string): string {
    "fleet:vin:" + vin
  }

  function DedupKey(vin: string, ts: int64): string {
    "dedup:" + vin + ":" + ItoaText(ts)
  }

  function EventID(vin: string, ts: int64): string {
    vin + "-" + Decimal(ts)
  }

  predicate Lacks(s: string, c: char) {
    forall i :: 0 <= i < |s| ==> s[i] != c
  }

  /** Two texts cut at their last separator agree exactly when both halves agree. */
  lemma CutAtLast(a: string, b: string, a': string, b': string, c: char)
    requires Lacks(b, c) && Lacks(b', c)
    ensures a + [c] + b == a' + [c] + b' <==> a == a' && b == b'
  {
    if a + [c] + b == a' + [c] + b' {
      var s := a + [c] + b;
      var s' := a' + [c] + b';
      assert s[|a|] == c && s'[|a'|] == c;
      assert forall i :: |a| < i < |s| ==> s[i] == b[i - |a| - 1];
      assert forall i :: |a'| < i < |s| ==> s'[i] == b'[i - |a'| - 1];
      assert |a| == |a'|;
      assert s[..|a|] == a && s'[..|a|] == a';
      assert s[|a| + 1..] == b && s'[|a| + 1..] == b';
    }
  }

  lemma {:induction false} RawDigitsBytes(v: int, c: char)
    requires c == ':'
    ensures Lacks(RawDigits(v), c)
    decreases if v < 0 then -v else v
  {
    if !(-10 < v < 10) {
      RawDigitsBytes(Quot10(v), c);
    }
  }

  lemma ItoaInjective(v: int64, w: int64)
    ensures ItoaText(v) == ItoaText(w) <==> v == w
  {
    ItoaRoundTrip(v);
    ItoaRoundTrip(w);
  }

  lemma SamePrefix(prefix: string, a: string, b: string)
    ensures prefix + a == prefix + b <==> a == b
  {
    if prefix + a == prefix + b {
      assert (prefix + a)[|prefix|..] == a && (prefix + b)[|prefix|..] == b;
    }
  }

  /** Redis deduplication keys identify the pair (VIN, timestamp), whatever bytes the VIN holds
      and also at the timestamp `itoa` misprints. */
  lemma DedupKeyInjective(vin: string, ts: int64, vin': string, ts': int64)
    ensures DedupKey(vin, ts) == DedupKey(vin', ts') <==> vin == vin' && ts == ts'
  {
    RawDigitsBytes(if ts < 0 then Negate(ts) else ts, ':');
    RawDigitsBytes(if ts' < 0 then Negate(ts') else ts', ':');
    CutAtLast("dedup:" + vin, ItoaText(ts), "dedup:" + vin', ItoaText(ts'), ':');
    SamePrefix("dedup:", vin, vin');
    ItoaInjective(ts, ts');
  }

  /** Document ids identify (VIN, timestamp) among messages with a non-negative timestamp. */
  lemma EventIDInjective(vin: string, ts: int64, vin': string, ts': int64)
    requires ts >= 0 && ts' >= 0
    ensures EventID(vin, ts) == EventID(vin', ts') <==> vin == vin' && ts == ts'
  {
    DigitsRoundTrip(ts);
    DigitsRoundTrip(ts');
    assert Lacks(Digits(ts), '-') && Lacks(Digits(ts'), '-');
    CutAtLast(vin, Digits(ts), vin', Digits(ts'), '-');
  }

  /** The sign of a negative timestamp reads like one more dash of the VIN. */
  function DashedVin(vin: string, ts: int64): string {
    if ts < 0 then vin + "-" else vin
  }

  function Magnitude(ts: int64): nat {
    if ts < 0 then -(ts as int) else ts
  }

  lemma EventIDByMagnitude(vin: string, ts: int64)
    ensures EventID(vin, ts) == DashedVin(vin, ts) + ['-'] + Digits(Magnitude(ts)) && Lacks(Digits(Magnitude(ts)), '-')
  {
    DigitsRoundTrip(Magnitude(ts));
  }

  /** For arbitrary timestamps two document ids are equal exactly when the VINs, each with the sign of its
      timestamp as one more dash, and the magnitudes are: they can collide only across signs. */
  lemma EventIDEqualIff(vin: string, ts: int64, vin': string, ts': int64)
    ensures EventID(vin, ts) == EventID(vin', ts') <==>
      DashedVin(vin, ts) == DashedVin(vin', ts') && Magnitude(ts) == Magnitude(ts')
  {
    EventIDByMagnitude(vin, ts);
    EventIDByMagnitude(vin', ts');
    DigitsRoundTrip(Magnitude(ts));
    DigitsRoundTrip(Magnitude(ts'));
    CutAtLast(DashedVin(vin, ts), Digits(Magnitude(ts)), DashedVin(vin', ts'), Digits(Magnitude(ts')), '-');
  }

  /** Without the positive-timestamp check two different reports can share a document id. */
  lemma EventIDCollision()
    ensures EventID("A-", 5) == EventID("A", -5)
  {
    assert Digits(5) == "5";
    assert "A-" + "-" + "5" == "A" + "-" + "-5";
  }

  // ---------- structured keys ----------

  /** The keys the services use in Redis, by structure instead of by text. */
  datatype Key = Dedup(vin: string, ts: int64) | Fleet(vin: string) | FleetIndex

  function Text(k: Key): string {
    match k
    case Dedup(vin, ts) => DedupKey(vin, ts)
    case Fleet(vin) => FleetKey(vin)
    case FleetIndex => FLEET_INDEX_KEY
  }

  /** The text of a key determines it: no two keys of any kind clash, so a Redis keyed by text
      behaves as one keyed by structure. */
  lemma TextInjective(k: Key, k': Key)
    ensures Text(k) == Text(k') <==> k == k'
  {
    assert FLEET_INDEX_KEY[0] == 'f' && FLEET_INDEX_KEY[9] == 's';
    match k {
      case Dedup(vin, ts) => assert Text(k)[0] == 'd';
      case Fleet(vin) => assert Text(k)[0] == 'f' && Text(k)[9] == ':' && Text(k)[10..] == vin;
      case FleetIndex =>
    }
    match k' {
      case Dedup(vin, ts) => assert Text(k')[0] == 'd';
      case Fleet(vin) => assert Text(k')[0] == 'f' && Text(k')[9] == ':' && Text(k')[10..] == vin;
      case FleetIndex =>
    }
    if k.Dedup? && k'.Dedup? {
      DedupKeyInjective(k.vin, k.ts, k'.vin, k'.ts);
    }
  }

  /** `texts` holds under key texts what `keys` holds under keys. */
  ghost predicate Renders(texts: map<string, string>, keys: map<Key, string>) {
    && (forall k :: k in keys ==> Text(k) in texts && texts[Text(k)] == keys[k])
    && (forall k :: Text(k) in texts ==> k in keys)
  }

  /** EXISTS, GET, SET and expiry by text are lookup, update and removal by structure. */
  lemma RenderedOperations(texts: map<string, string>, keys: map<Key, string>, k: Key, v: string)
    requires Renders(texts, keys)
    ensures Text(k) in texts <==> k in keys
    ensures k in keys ==> texts[Text(k)] == keys[k]
    ensures Renders(texts[Text(k) := v], keys[k := v])
    ensures Renders(texts - {Text(k)}, keys - {k})
  {
    forall j: Key ensures Text(j) == Text(k) <==> j == k {
      TextInjective(j, k);
    }
  }

  /** The identity of an event, by structure. */
  datatype EventId = EventId(vin: string, ts: int64)

  function IdText(id: EventId): string {
    EventID(id.vin, id.ts)
  }

  /** For validated messages (positive timestamps) the three identities coincide: the deduplication
      key, the document id and the pair (VIN, timestamp) are equal together. */
  lemma IdentitiesCoincide(vin: string, ts: int64, vin': string, ts': int64)
    requires ts > 0 && ts' > 0
    ensures DedupKey(vin, ts) == DedupKey(vin', ts') <==> vin == vin' && ts == ts'
    ensures EventID(vin, ts) == EventID(vin', ts') <==> vin == vin' && ts == ts'
  {
    DedupKeyInjective(vin, ts, vin', ts');
    EventIDInjective(vin, ts, vin', ts');
  }
}
