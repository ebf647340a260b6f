/** The call ids the worker mints before dialling: "cb-{callback_id}-{nonce}". */
module CallIds {

  function Digit(d: nat): char
    requires d < 10
  {
    ('0' as int + d) as char
  }

  function Decimal(n: nat): (text: string)
    ensures |text| > 0
    ensures '-' !in text
  {
    if n < 10 then [Digit(n)] else Decimal(n / 10) + [Digit(n % 10)]
  }

  function MintedId(callbackId: nat, nonce: string): string {
    "cb-" + Decimal(callbackId) + "-" + nonce
  }

  ghost predicate MintedFor(sarvamCallId: string, callbackId: nat) {
    exists nonce :: sarvamCallId == MintedId(callbackId, nonce)
  }

  /** The number a string of digits is read as. */
  function ValueOf(text: string): int {
    if text == "" then 0
    else ValueOf(text[..|text| - 1]) * 10 + (text[|text| - 1] as int - '0' as int)
  }

  /** Decimal writes the digits that are read as the number, with no needless zero in front. */
  lemma {:induction false} DecimalReads(n: nat)
    ensures ValueOf(Decimal(n)) == n
    ensures forall i :: 0 <= i < |Decimal(n)| ==> '0' <= Decimal(n)[i] <= '9'
    ensures Decimal(n)[0] == '0' ==> n == 0
  {
    var text := Decimal(n);
    if n < 10 {
      assert text[..0] == "" && ValueOf("") == 0;
    } else {
      DecimalReads(n / 10);
      assert text[..|text| - 1] == Decimal(n / 10);
    }
  }

  lemma {:induction false} DecimalInjective(m: nat, n: nat)
    requires Decimal(m) == Decimal(n)
    ensures m == n
  {
    if m >= 10 && n >= 10 {
      assert Decimal(m)[..|Decimal(m)| - 1] == Decimal(m / 10);
      assert Decimal(n)[..|Decimal(n)| - 1] == Decimal(n / 10);
      assert Digit(m % 10) == Decimal(m)[|Decimal(m)| - 1] == Decimal(n)[|Decimal(n)| - 1] == Digit(n % 10);
      DecimalInjective(m / 10, n / 10);
    } else {
      assert |Decimal(m)| == |Decimal(n)|;
      assert Decimal(m)[0] == Decimal(n)[0];
    }
  }

  lemma DashFreePrefix(a: string, x: string, b: string, y: string)
    requires a + "-" + x == b + "-" + y
    requires '-' !in b
    ensures |b| <= |a|
  {
    var whole := a + "-" + x;
    assert whole[|a|] == '-';
    assert forall i :: 0 <= i < |b| ==> whole[i] == b[i];
  }

  /** A minted id names one callback, whatever the nonces are: even two equal
      nonces never let two callbacks share a call id. */
  lemma MintedIdNamesOneCallback(sarvamCallId: string, j: nat, k: nat)
    requires MintedFor(sarvamCallId, j) && MintedFor(sarvamCallId, k)
    ensures j == k
  {
    var x :| sarvamCallId == MintedId(j, x);
    var y :| sarvamCallId == MintedId(k, y);
    var a, b := Decimal(j), Decimal(k);
    var rest := sarvamCallId[3..];
    assert rest == a + "-" + x;
    assert rest == b + "-" + y;
    DashFreePrefix(a, x, b, y);
    DashFreePrefix(b, y, a, x);
    assert a == rest[..|a|] && b == rest[..|b|];
    DecimalInjective(j, k);
  }
}
