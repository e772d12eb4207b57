/**
 The job hash: what is fed to the digest, field by field and undelimited, and
 when two jobs are told apart by it. The digest itself is an arbitrary function.
 */
module Hashing {
  import opened Base

  // ------------------------------------------------------------- decimal numbers

  const MINUS: byte := 45

  function Digit(d: int): byte
    requires 0 <= d < 10
  {
    (48 + d) as byte
  }

  function Digits(n: nat): Text {
    if n < 10 then [Digit(n)] else Digits(n / 10) + [Digit(n % 10)]
  }

  // `i64::to_string`
  function Decimal(n: int): Text {
    if n < 0 then [MINUS] + Digits(-n) else Digits(n)
  }

  function Pow10(k: nat): nat {
    if k == 0 then 1 else 10 * Pow10(k - 1)
  }

  lemma {:induction false} DigitsShape(n: nat)
    ensures Digits(n) != []
    ensures forall k | 0 <= k < |Digits(n)| :: Digits(n)[k] != MINUS
  {
    if n >= 10 {
      DigitsShape(n / 10);
    }
  }

  lemma {:induction false} DigitsInjective(m: nat, n: nat)
    requires Digits(m) == Digits(n)
    ensures m == n
  {
    var d, e := Digits(m), Digits(n);
    assert d[|d| - 1] == e[|e| - 1];
    if m >= 10 {
      DigitsShape(m / 10);
    }
    if n >= 10 {
      DigitsShape(n / 10);
    }
    if m >= 10 && n >= 10 {
      assert d[..|d| - 1] == Digits(m / 10);
      assert e[..|e| - 1] == Digits(n / 10);
      DigitsInjective(m / 10, n / 10);
    }
  }

  lemma {:induction false} DigitsWidth(n: nat, k: nat)
    requires 0 < k && (k == 1 || Pow10(k - 1) <= n) && n < Pow10(k)
    ensures |Digits(n)| == k
  {
    assert Pow10(k) == 10 * Pow10(k - 1);
    if k == 1 {
      assert Pow10(0) == 1;
    } else {
      assert Pow10(k - 1) == 10 * Pow10(k - 2);
      PositivePow10(k - 2);
      DigitsWidth(n / 10, k - 1);
    }
  }

  lemma {:induction false} PositivePow10(k: nat)
    ensures Pow10(k) >= 1
  {
    if k > 0 {
      PositivePow10(k - 1);
    }
  }

  lemma DecimalInjective(m: int, n: int)
    ensures Decimal(m) == Decimal(n) <==> m == n
  {
    if Decimal(m) == Decimal(n) {
      var a, b := if m < 0 then -m else m, if n < 0 then -n else n;
      DigitsShape(a);
      DigitsShape(b);
      assert m < 0 <==> Decimal(m)[0] == MINUS;
      assert n < 0 <==> Decimal(n)[0] == MINUS;
      if m < 0 {
        assert Decimal(m)[1..] == Digits(a) && Decimal(n)[1..] == Digits(b);
      }
      DigitsInjective(a, b);
    }
  }

  function ReadDigits(s: Text): int {
    if s == [] then 0 else 10 * ReadDigits(s[..|s| - 1]) + (s[|s| - 1] as int - '0' as int)
  }

  predicate IsDigit(c: byte) {
    '0' as int <= c as int <= '9' as int
  }

  // Decimal notation: the digits '0' to '9', most significant first, without leading zeros.
  lemma {:induction false} DigitsAreDecimal(n: nat)
    ensures ReadDigits(Digits(n)) == n
    ensures forall k | 0 <= k < |Digits(n)| :: IsDigit(Digits(n)[k])
    ensures n > 0 ==> Digits(n) != [] && Digits(n)[0] as int != '0' as int
  {
    assert Digits(n)[..|Digits(n)| - 1] == if n < 10 then [] else Digits(n / 10);
    if n >= 10 {
      DigitsAreDecimal(n / 10);
    }
  }

  lemma DecimalIsSigned(n: int)
    ensures n < 0 ==> Decimal(n)[0] as int == '-' as int && ReadDigits(Decimal(n)[1..]) == -n
    ensures n >= 0 ==> ReadDigits(Decimal(n)) == n
  {
    if n < 0 {
      DigitsAreDecimal(-n);
      assert Decimal(n)[1..] == Digits(-n);
    } else {
      DigitsAreDecimal(n);
    }
  }

  // Unix seconds from September 2001 to November 2286.
  predicate TenDigitTime(t: int) {
    1_000_000_000 <= t < 10_000_000_000
  }

  lemma TenDigits(t: int)
    requires TenDigitTime(t)
    ensures |Decimal(t)| == 10
  {
    assert Pow10(4) == 10_000;
    assert Pow10(7) == 10_000_000;
    assert Pow10(9) == 1_000_000_000;
    assert Pow10(10) == 10_000_000_000;
    DigitsWidth(t, 10);
  }

  // ------------------------------------------------- Base16 (section 8 of RFC 4648)

  // `hex::encode` uses the lower-case alphabet.
  function HexDigit(d: int): byte
    requires 0 <= d < 16
  {
    if d < 10 then (48 + d) as byte else (87 + d) as byte
  }

  function Hex(s: Text): Text {
    if s == [] then [] else [HexDigit(s[0] as int / 16), HexDigit(s[0] as int % 16)] + Hex(s[1..])
  }

  function HexValue(c: byte): Option<int> {
    if 48 <= c < 58 then Some(c as int - 48)
    else if 97 <= c < 103 then Some(c as int - 87)
    else None
  }

  function UnHex(h: Text): Option<Text> {
    if h == [] then Some([])
    else if |h| == 1 then None
    else
      var hi, lo, rest := HexValue(h[0]), HexValue(h[1]), UnHex(h[2..]);
      if hi.None? || lo.None? || rest.None? then None
      else
        assert HexValue(h[0]).value < 16 && HexValue(h[1]).value < 16;
        Some([(16 * hi.value + lo.value) as byte] + rest.value)
  }

  lemma {:induction false} HexRoundTrip(s: Text)
    ensures UnHex(Hex(s)) == Some(s)
    ensures |Hex(s)| == 2 * |s|
  {
    if s != [] {
      HexRoundTrip(s[1..]);
      assert Hex(s)[2..] == Hex(s[1..]);
      assert s == [s[0]] + s[1..];
    }
  }

  // Two characters a byte, the high half first, in the lower-case alphabet.
  lemma {:induction false} HexCharacters(s: Text, i: nat)
    requires i < |s|
    ensures |Hex(s)| == 2 * |s|
    ensures Hex(s)[2 * i] as int == "0123456789abcdef"[s[i] as int / 16] as int
    ensures Hex(s)[2 * i + 1] as int == "0123456789abcdef"[s[i] as int % 16] as int
  {
    HexRoundTrip(s);
    if i == 0 {
      HexDigitCharacter(s[0] as int / 16);
      HexDigitCharacter(s[0] as int % 16);
    } else {
      HexCharacters(s[1..], i - 1);
      assert Hex(s)[2..] == Hex(s[1..]);
      assert Hex(s)[2..][2 * (i - 1)] == Hex(s)[2 * i] && Hex(s)[2..][2 * (i - 1) + 1] == Hex(s)[2 * i + 1];
    }
  }

  lemma HexDigitCharacter(d: int)
    requires 0 <= d < 16
    ensures HexDigit(d) as int == "0123456789abcdef"[d] as int
  {
  }

  lemma HexInjective(s: Text, t: Text)
    ensures Hex(s) == Hex(t) <==> s == t
  {
    HexRoundTrip(s);
    HexRoundTrip(t);
  }

  // --------------------------------------------------------------- the preimage

  datatype JobHashingPayload = JobHashingPayload(
    consumerPeerId: PeerId,
    providerPeerId: PeerId,
    protocolId: Text,
    offerPayload: Text,
    currency: Text,
    providerJobId: Text,
    jobCreatedAtSync: int,
    jobPublicPayload: Text,
    jobCompletedAtSync: int,
    balanceDelta: Option<Text>)

  function OrEmpty(t: Option<Text>): Text {
    if t.Some? then t.value else []
  }

  function Preimage(j: JobHashingPayload): Text {
    CreationPart(j) + j.jobPublicPayload + Decimal(j.jobCompletedAtSync) + OrEmpty(j.balanceDelta)
  }

  function CreationPart(j: JobHashingPayload): Text {
    j.consumerPeerId + j.providerPeerId + j.protocolId + j.offerPayload + j.currency + j.providerJobId
    + Decimal(j.jobCreatedAtSync)
  }

  class Hasher {
    var fed: Text

    constructor ()
      ensures fed == []
    {
      fed := [];
    }

    method Update(bytes: Text)
      modifies this
      ensures fed == old(fed) + bytes
    {
      fed := fed + bytes;
    }
  }

  method HashJob(digest: Text -> Text, job: JobHashingPayload) returns (hash: Text)
    ensures hash == digest(Preimage(job))
    ensures Preimage(job) ==
      job.consumerPeerId + job.providerPeerId + job.protocolId + job.offerPayload + job.currency + job.providerJobId
      + Decimal(job.jobCreatedAtSync) + job.jobPublicPayload + Decimal(job.jobCompletedAtSync)
      + (if job.balanceDelta.Some? then job.balanceDelta.value else [])
  {
    var hasher := new Hasher();
    hasher.Update(job.consumerPeerId);
    hasher.Update(job.providerPeerId);
    hasher.Update(job.protocolId);
    hasher.Update(job.offerPayload);
    hasher.Update(job.currency);
    hasher.Update(job.providerJobId);
    hasher.Update(Decimal(job.jobCreatedAtSync));
    assert hasher.fed == CreationPart(job);
    hasher.Update(job.jobPublicPayload);
    hasher.Update(Decimal(job.jobCompletedAtSync));
    if job.balanceDelta.Some? {
      hasher.Update(job.balanceDelta.value);
    }
    assert hasher.fed == Preimage(job);
    hash := digest(hasher.fed);
  }

  // ---------------------------------------------------------------- injectivity

  lemma Cancel(a: Text, b: Text, c: Text, d: Text)
    requires a + b == c + d && |a| == |c|
    ensures a == c && b == d
  {
    assert (a + b)[..|a|] == a && (c + d)[..|c|] == c;
    assert (a + b)[|a|..] == b && (c + d)[|c|..] == d;
  }

  predicate SameCreation(a: JobHashingPayload, b: JobHashingPayload) {
    && a.consumerPeerId == b.consumerPeerId
    && a.providerPeerId == b.providerPeerId
    && a.protocolId == b.protocolId
    && a.offerPayload == b.offerPayload
    && a.currency == b.currency
    && a.providerJobId == b.providerJobId
    && a.jobCreatedAtSync == b.jobCreatedAtSync
  }

  // For two completions of one job with ten-digit times and payloads of one length, the
  // preimage determines payload, time and delta.
  lemma PreimageDeterminesCompletion(a: JobHashingPayload, b: JobHashingPayload)
    requires SameCreation(a, b)
    requires TenDigitTime(a.jobCompletedAtSync) && TenDigitTime(b.jobCompletedAtSync)
    requires |a.jobPublicPayload| == |b.jobPublicPayload|
    ensures Preimage(a) == Preimage(b) <==>
      && a.jobPublicPayload == b.jobPublicPayload
      && a.jobCompletedAtSync == b.jobCompletedAtSync
      && OrEmpty(a.balanceDelta) == OrEmpty(b.balanceDelta)
  {
    TenDigits(a.jobCompletedAtSync);
    TenDigits(b.jobCompletedAtSync);
    DecimalInjective(a.jobCompletedAtSync, b.jobCompletedAtSync);
    if Preimage(a) == Preimage(b) {
      var p, q := CreationPart(a) + a.jobPublicPayload, CreationPart(b) + b.jobPublicPayload;
      Cancel(p + Decimal(a.jobCompletedAtSync), OrEmpty(a.balanceDelta),
             q + Decimal(b.jobCompletedAtSync), OrEmpty(b.balanceDelta));
      Cancel(p, Decimal(a.jobCompletedAtSync), q, Decimal(b.jobCompletedAtSync));
      Cancel(CreationPart(a), a.jobPublicPayload, CreationPart(b), b.jobPublicPayload);
    }
  }

  // The delta that enters the hash: Base16 of the text the module gave.
  function EncodedDelta(delta: Option<Text>): Option<Text> {
    if delta.Some? then Some(Hex(delta.value)) else None
  }

  // With deltas in their hashed encoding: equal preimages mean equal deltas, except that an
  // absent delta and an empty one look alike.
  lemma PreimageDeterminesDelta(a: JobHashingPayload, b: JobHashingPayload, x: Option<Text>, y: Option<Text>)
    requires SameCreation(a, b)
    requires TenDigitTime(a.jobCompletedAtSync) && TenDigitTime(b.jobCompletedAtSync)
    requires |a.jobPublicPayload| == |b.jobPublicPayload|
    requires a.balanceDelta == EncodedDelta(x) && b.balanceDelta == EncodedDelta(y)
    ensures Preimage(a) == Preimage(b) <==>
      && a.jobPublicPayload == b.jobPublicPayload
      && a.jobCompletedAtSync == b.jobCompletedAtSync
      && OrEmpty(x) == OrEmpty(y)
    ensures Preimage(a) == Preimage(b) && x.Some? && y.Some? ==> a == b && x == y
  {
    PreimageDeterminesCompletion(a, b);
    HexInjective(OrEmpty(x), OrEmpty(y));
    assert OrEmpty(EncodedDelta(x)) == Hex(OrEmpty(x));
    assert OrEmpty(EncodedDelta(y)) == Hex(OrEmpty(y));
  }

  // Among equal preimages, equal payload lengths are exactly what rules out a collision.
  lemma CollisionsShiftLengths(a: JobHashingPayload, b: JobHashingPayload)
    requires SameCreation(a, b) && Preimage(a) == Preimage(b)
    requires TenDigitTime(a.jobCompletedAtSync) && TenDigitTime(b.jobCompletedAtSync)
    requires a.balanceDelta.Some? && b.balanceDelta.Some?
    ensures a == b <==> |a.jobPublicPayload| == |b.jobPublicPayload|
  {
    if |a.jobPublicPayload| == |b.jobPublicPayload| {
      PreimageDeterminesCompletion(a, b);
    }
  }

  // Jobs that differ at most in the offer payload: the payload decides.
  lemma OfferPayloadDecides(a: JobHashingPayload, b: JobHashingPayload)
    requires a == b.(offerPayload := a.offerPayload)
    ensures Preimage(a) == Preimage(b) <==> a.offerPayload == b.offerPayload
  {
    var prefix := a.consumerPeerId + a.providerPeerId + a.protocolId;
    var suffix := a.currency + a.providerJobId + Decimal(a.jobCreatedAtSync) + a.jobPublicPayload
                  + Decimal(a.jobCompletedAtSync) + OrEmpty(a.balanceDelta);
    assert Preimage(a) == prefix + (a.offerPayload + suffix);
    assert Preimage(b) == prefix + (b.offerPayload + suffix);
    if Preimage(a) == Preimage(b) {
      Cancel(prefix, a.offerPayload + suffix, prefix, b.offerPayload + suffix);
      Cancel(a.offerPayload, suffix, b.offerPayload, suffix);
    }
  }

  // Without that condition two different completions can share a preimage: two digits move
  // from the end of the payload through the time into the delta.
  lemma CollisionWithoutEqualLengths(j: JobHashingPayload) returns (a: JobHashingPayload, b: JobHashingPayload)
    ensures SameCreation(a, j) && SameCreation(b, j)
    ensures TenDigitTime(a.jobCompletedAtSync) && TenDigitTime(b.jobCompletedAtSync)
    ensures a.balanceDelta == EncodedDelta(Some([49, 49])) && b.balanceDelta == EncodedDelta(Some([49]))
    ensures a.jobPublicPayload != b.jobPublicPayload && a.jobCompletedAtSync != b.jobCompletedAtSync
    ensures Preimage(a) == Preimage(b)
  {
    a := j.(jobPublicPayload := [], jobCompletedAtSync := 1_111_111_111, balanceDelta := EncodedDelta(Some([49, 49])));
    b := j.(jobPublicPayload := [49, 49], jobCompletedAtSync := 1_111_111_131, balanceDelta := EncodedDelta(Some([49])));
    OnesInDecimal();
    OnesInHex();
    assert CompletionPart(a) == CompletionPart(b);
    PreimageParts(a);
    PreimageParts(b);
  }

  function CompletionPart(j: JobHashingPayload): Text {
    j.jobPublicPayload + Decimal(j.jobCompletedAtSync) + OrEmpty(j.balanceDelta)
  }

  lemma PreimageParts(j: JobHashingPayload)
    ensures Preimage(j) == CreationPart(j) + CompletionPart(j)
  {
  }

  lemma OnesInHex()
    ensures Hex([49]) == [51, 49]
    ensures Hex([49, 49]) == [51, 49, 51, 49]
  {
  }

  lemma OnesInDecimal()
    ensures Decimal(1_111_111_111) == [49, 49, 49, 49, 49, 49, 49, 49, 49, 49]
    ensures Decimal(1_111_111_131) == [49, 49, 49, 49, 49, 49, 49, 49, 51, 49]
  {
    assert Digits(1) == [49];
    assert Digits(11) == [49, 49];
    assert Digits(111) == [49, 49, 49];
    assert Digits(1111) == [49, 49, 49, 49];
    assert Digits(11111) == [49, 49, 49, 49, 49];
    assert Digits(111111) == [49, 49, 49, 49, 49, 49];
    assert Digits(1111111) == [49, 49, 49, 49, 49, 49, 49];
    assert Digits(11111111) == [49, 49, 49, 49, 49, 49, 49, 49];
    assert Digits(111111111) == [49, 49, 49, 49, 49, 49, 49, 49, 49];
    assert Digits(111111113) == [49, 49, 49, 49, 49, 49, 49, 49, 51];
  }
}
