/**
 * The simulated payment provider (`MockWeChatPayUtil`). The clock readings and the
 * random strings it draws are parameters; the order number, amount, description and
 * openid it is given are only logged, so they do not appear.
 */
module MockPay {
  import opened Wrappers
  import opened Decimal
  import Base64

  predicate IsAlphanumeric(c: char) {
    'A' <= c <= 'Z' || 'a' <= c <= 'z' || '0' <= c <= '9'
  }

  predicate AllAlphanumeric(s: string) {
    forall i :: 0 <= i < |s| ==> IsAlphanumeric(s[i])
  }

  predicate IsAscii(s: string) {
    forall i :: 0 <= i < |s| ==> s[i] as int < 128
  }

  /** `String.getBytes()` on ASCII text: one byte per character, its code. */
  function AsciiBytes(s: string): (b: seq<Base64.Byte>)
    requires IsAscii(s)
    ensures |b| == |s| && forall i :: 0 <= i < |s| ==> b[i] == s[i] as int
  {
    seq(|s|, i requires 0 <= i < |s| => s[i] as int)
  }

  const PREPAY_PREFIX: string := "prepay_id="

  /** The fields of the returned JSON object. */
  datatype PayIntent = PayIntent(
    timeStamp: string,
    nonceStr: string,
    packageStr: string,
    signType: string,
    paySign: string,
    prepayId: string)

  /** The text that is signed: timestamp, nonce and package, in that order. */
  function SignData(timeStamp: string, nonceStr: string, packageStr: string): string {
    timeStamp + nonceStr + packageStr
  }

  /** The signed text splits back into its three fields, in order. */
  lemma SignDataPieces(timeStamp: string, nonceStr: string, packageStr: string)
    ensures var d := SignData(timeStamp, nonceStr, packageStr);
      && |d| == |timeStamp| + |nonceStr| + |packageStr|
      && d[..|timeStamp|] == timeStamp
      && d[|timeStamp|..|timeStamp| + |nonceStr|] == nonceStr
      && d[|timeStamp| + |nonceStr|..] == packageStr
  {
  }

  /**
   * `pay`: `idMillis` and `stampMillis` are the two clock readings (prepay id, timestamp),
   * `randomDigits` is `RandomStringUtils.randomNumeric(10)` and `nonce` is
   * `RandomStringUtils.randomAlphanumeric(32)`.
   */
  function Pay(idMillis: nat, stampMillis: nat, randomDigits: string, nonce: string): (r: PayIntent)
    requires |randomDigits| == 10 && AllDigits(randomDigits)
    requires |nonce| == 32 && AllAlphanumeric(nonce)
    ensures IsAscii(SignData(r.timeStamp, r.nonceStr, r.packageStr))
    ensures r.paySign == Sign(SignData(r.timeStamp, r.nonceStr, r.packageStr))
  {
    var prepayId := "wx" + NatToDecimal(idMillis) + randomDigits;
    var timeStamp := NatToDecimal(stampMillis / 1000);
    var packageStr := PREPAY_PREFIX + prepayId;
    var signData := SignData(timeStamp, nonce, packageStr);
    assert IsAscii(signData) by {
      forall i | 0 <= i < |signData| ensures signData[i] as int < 128 {
        if i < |timeStamp| {
          assert signData[i] == timeStamp[i];
        } else if i < |timeStamp| + |nonce| {
          assert signData[i] == nonce[i - |timeStamp|];
        } else if i < |timeStamp| + |nonce| + |PREPAY_PREFIX| + 2 + |NatToDecimal(idMillis)| {
          var j := i - |timeStamp| - |nonce|;
          assert signData[i] == packageStr[j];
          if j >= |PREPAY_PREFIX| + 2 {
            assert packageStr[j] == NatToDecimal(idMillis)[j - |PREPAY_PREFIX| - 2];
          }
        } else {
          var j := i - |timeStamp| - |nonce| - |PREPAY_PREFIX| - 2 - |NatToDecimal(idMillis)|;
          assert signData[i] == randomDigits[j];
        }
      }
    }
    PayIntent(timeStamp, nonce, packageStr, "RSA", Sign(signData), prepayId)
  }

  /** The `paySign` of a sign text: its bytes in Base64. */
  function Sign(signData: string): (sig: string)
    requires IsAscii(signData)
    ensures |sig| == 4 * ((|signData| + 2) / 3)
    ensures Base64.IsEncodedText(sig)
  {
    Base64.Encode(AsciiBytes(signData))
  }

  /** A signature decodes back to the bytes of the signed text. */
  lemma SignDecodes(signData: string)
    requires IsAscii(signData)
    ensures Base64.Decode(Sign(signData)) == AsciiBytes(signData)
  {
    Base64.DecodeEncode(AsciiBytes(signData));
  }

  /** The prepay id a `package` string carries, when it has the `prepay_id=` form. */
  function PrepayIdOf(packageStr: string): Option<string> {
    if |packageStr| >= |PREPAY_PREFIX| && packageStr[..|PREPAY_PREFIX|] == PREPAY_PREFIX
    then Some(packageStr[|PREPAY_PREFIX|..])
    else None
  }

  /** The shape of the intent: prepay id, timestamp, nonce, package and fixed sign type. */
  lemma PayFields(idMillis: nat, stampMillis: nat, randomDigits: string, nonce: string)
    requires |randomDigits| == 10 && AllDigits(randomDigits)
    requires |nonce| == 32 && AllAlphanumeric(nonce)
    ensures var r := Pay(idMillis, stampMillis, randomDigits, nonce);
      && r.prepayId[..2] == "wx"
      && r.prepayId[|r.prepayId| - 10..] == randomDigits
      && AllDigits(r.prepayId[2..|r.prepayId| - 10])
      && DecimalValue(r.prepayId[2..|r.prepayId| - 10]) == idMillis
      && AllDigits(r.timeStamp) && DecimalValue(r.timeStamp) == stampMillis / 1000
      && |r.nonceStr| == 32 && AllAlphanumeric(r.nonceStr)
      && PrepayIdOf(r.packageStr) == Some(r.prepayId)
      && r.signType == "RSA"
  {
    var r := Pay(idMillis, stampMillis, randomDigits, nonce);
    var digits := NatToDecimal(idMillis);
    assert r.prepayId[2..|r.prepayId| - 10] == digits;
    assert r.packageStr[..|PREPAY_PREFIX|] == PREPAY_PREFIX;
    assert r.packageStr[|PREPAY_PREFIX|..] == r.prepayId;
    DecimalRoundTrip(idMillis);
    DecimalRoundTrip(stampMillis / 1000);
  }

  /** The returned JSON object, keyed as the source puts the entries. It has no "code" entry. */
  function IntentJson(r: PayIntent): (json: map<string, string>)
    ensures "code" !in json
    ensures Get(json, "package") == Some(r.packageStr)
  {
    map["timeStamp" := r.timeStamp, "nonceStr" := r.nonceStr, "package" := r.packageStr,
        "signType" := r.signType, "paySign" := r.paySign, "prepay_id" := r.prepayId]
  }

  /** The callback record `mockPayCallback` builds; `transaction_id` and `success_time` read the clock separately. */
  datatype PayCallback = PayCallback(outTradeNo: string, transactionId: string, tradeState: string, successTime: int)

  function MockPayCallback(orderNumber: string, idMillis: nat, timeMillis: nat): (c: PayCallback)
    ensures c.outTradeNo == orderNumber && c.tradeState == "SUCCESS" && c.successTime == timeMillis
    ensures |c.transactionId| > 4 && c.transactionId[..4] == "4200"
    ensures AllDigits(c.transactionId[4..]) && DecimalValue(c.transactionId[4..]) == idMillis
  {
    var id := "4200" + NatToDecimal(idMillis);
    assert id[4..] == NatToDecimal(idMillis);
    DecimalRoundTrip(idMillis);
    PayCallback(orderNumber, id, "SUCCESS", timeMillis)
  }
}
