/**
 The string-key generator: a closure over a generator whose counter starts at
 0; each call adds one to it and yields `key_` followed by the new value. The
 counter is a JavaScript number, so it counts exactly up to 2^53 and stays
 there.
 */
module StringKeys {
  import opened Wrappers
  import opened JsNumber

  const Prefix: string := "key_"

  predicate IsDigit(c: char)
  {
    '0' <= c <= '9'
  }

  function DigitChar(d: nat): (c: char)
    requires d < 10
    ensures IsDigit(c) && c as int - '0' as int == d
  {
    ('0' as int + d) as char
  }

  /** The decimal text of a natural number, as a template literal prints it
      (every reachable counter value is below 10^21, where printing switches
      to exponent notation). */
  function Decimal(n: nat): (s: string)
    ensures |s| > 0
    ensures forall i :: 0 <= i < |s| ==> IsDigit(s[i])
    ensures n > 0 ==> s[0] != '0'
    decreases n
  {
    if n < 10 then [DigitChar(n)] else Decimal(n / 10) + [DigitChar(n % 10)]
  }

  /** The number a string of decimal digits denotes. */
  function DecimalValue(s: string): nat
    requires forall i :: 0 <= i < |s| ==> IsDigit(s[i])
    decreases |s|
  {
    if |s| == 0 then 0
    else
      assert IsDigit(s[|s| - 1]);
      DecimalValue(s[..|s| - 1]) * 10 + (s[|s| - 1] as int - '0' as int)
  }

  lemma {:induction false} DecimalRoundTrip(n: nat)
    ensures DecimalValue(Decimal(n)) == n
    decreases n
  {
    if n >= 10 {
      var s := Decimal(n);
      assert s[..|s| - 1] == Decimal(n / 10);
      DecimalRoundTrip(n / 10);
    }
  }

  /** The key the counter value `n` is printed as. */
  function Key(n: nat): string
  {
    Prefix + Decimal(n)
  }

  /** `key_` followed by a positive decimal integer without leading zeros. */
  predicate IsKey(s: string)
  {
    && |s| > |Prefix|
    && s[..|Prefix|] == Prefix
    && (forall i :: |Prefix| <= i < |s| ==> IsDigit(s[i]))
    && s[|Prefix|] != '0'
  }

  /** The counter value a key was printed from. */
  function ParseKey(s: string): Option<nat>
  {
    if IsKey(s) then Some(DecimalValue(s[|Prefix|..])) else None
  }

  /** Every key of a positive counter is well formed and parses back to it. */
  lemma KeyRoundTrip(n: nat)
    requires n > 0
    ensures IsKey(Key(n))
    ensures ParseKey(Key(n)) == Some(n)
  {
    var k := Key(n);
    assert k[|Prefix|..] == Decimal(n);
    DecimalRoundTrip(n);
  }

  lemma KeyInjective(m: nat, n: nat)
    requires m > 0 && n > 0
    ensures Key(m) == Key(n) <==> m == n
  {
    KeyRoundTrip(m);
    KeyRoundTrip(n);
  }

  datatype KeyGenerator = KeyGenerator(value: Count)

  /** The generator before its first call. */
  const Fresh: KeyGenerator := KeyGenerator(0)

  /** One call: increment the counter, yield the key of its new value. */
  function Next(g: KeyGenerator): (r: (string, KeyGenerator))
    ensures r.1.value > 0 && r.0 == Key(r.1.value)
    ensures g.value < MaxCount ==> r.1.value == g.value + 1
  {
    var value := Increment(g.value);
    (Key(value), KeyGenerator(value))
  }

  /** The key the n-th call returns, for n >= 1. */
  function NthKey(n: nat): string
    requires n > 0
  {
    Key(Min(n, MaxCount))
  }

  /** The first `n` calls, collected in order. */
  method GenerateKeys(n: nat) returns (keys: seq<string>, g: KeyGenerator)
    ensures |keys| == n
    ensures forall i :: 0 <= i < n ==> keys[i] == NthKey(i + 1)
    ensures g.value == Min(n, MaxCount)
  {
    keys := [];
    g := Fresh;
    while |keys| < n
      invariant |keys| <= n
      invariant g.value == Min(|keys|, MaxCount)
      invariant forall i :: 0 <= i < |keys| ==> keys[i] == NthKey(i + 1)
      decreases n - |keys|
    {
      var r := Next(g);
      keys := keys + [r.0];
      g := r.1;
    }
  }

  lemma FirstKey()
    ensures Next(Fresh).0 == "key_1"
  {
  }

  /** The first 2^53 calls return pairwise different keys. */
  lemma NthKeysDistinct(m: nat, n: nat)
    requires 0 < m < n <= MaxCount
    ensures NthKey(m) != NthKey(n)
    ensures ParseKey(NthKey(n)) == Some(n)
  {
    KeyInjective(m, n);
    KeyRoundTrip(n);
  }

  /** Call number 2^53 + 1 repeats the key of call 2^53. */
  lemma KeyRepeatsAtLimit()
    ensures NthKey(MaxCount + 1) == NthKey(MaxCount)
    ensures Next(KeyGenerator(MaxCount)).0 == Next(KeyGenerator(MaxCount - 1)).0
  {
  }
}
