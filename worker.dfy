/** The pure helpers of the backend worker (apps/worker/worker.ts): reading an
    odometer value out of OCR text, the default wear rate, and the CORS
    headers attached to every response. */
module Worker {
  import opened Wrappers
  import opened FormInput

  // ---- the odometer digit heuristic ----

  predicate IsDigit(c: char) {
    '0' <= c <= '9'
  }

  predicate AllDigits(s: string) {
    forall i | 0 <= i < |s| :: IsDigit(s[i])
  }

  /** `fullText.replace(/\D/g, "")`. */
  function DigitsOnly(s: string): (d: string)
    ensures AllDigits(d)
    ensures |d| <= |s|
  {
    if s == [] then []
    else DigitsOnly(s[..|s| - 1]) + (if IsDigit(s[|s| - 1]) then [s[|s| - 1]] else [])
  }

  /** The filter keeps the digits in their original order: it distributes over
      concatenation. */
  lemma {:induction false} DigitsOnlyAppend(a: string, b: string)
    ensures DigitsOnly(a + b) == DigitsOnly(a) + DigitsOnly(b)
    decreases |b|
  {
    if b == [] {
      assert a + b == a;
    } else {
      var n := |b| - 1;
      assert (a + b)[..|a + b| - 1] == a + b[..n];
      assert (a + b)[|a + b| - 1] == b[n];
      DigitsOnlyAppend(a, b[..n]);
    }
  }

  /** A string of digits is kept whole. */
  lemma {:induction false} DigitsOnlyOfDigits(s: string)
    requires AllDigits(s)
    ensures DigitsOnly(s) == s
  {
    if s != [] {
      var n := |s| - 1;
      DigitsOnlyOfDigits(s[..n]);
      assert s == s[..n] + [s[n]];
    }
  }

  /** Text without a digit leaves nothing. */
  lemma {:induction false} DigitsOnlyEmpty(s: string)
    ensures DigitsOnly(s) == [] <==> forall i | 0 <= i < |s| :: !IsDigit(s[i])
  {
    if s != [] {
      var n := |s| - 1;
      DigitsOnlyEmpty(s[..n]);
      assert forall i | 0 <= i < n :: s[..n][i] == s[i];
    }
  }

  /** The if-chain on `digitsOnly.length`: 4 to 7 digits, more than 7 (keep
      the last 7), 1 to 3 digits; no digits give no candidate. */
  function Candidate(digits: string): (c: Option<string>)
    ensures c.None? <==> digits == []
    ensures c.Some? ==> 1 <= |c.value| <= 7 && |c.value| <= |digits| && c.value == digits[|digits| - |c.value|..]
    ensures 0 < |digits| <= 7 ==> c == Some(digits)
    ensures |digits| > 7 ==> c == Some(digits[|digits| - 7..])
  {
    if 4 <= |digits| <= 7 then Some(digits)
    else if |digits| > 7 then Some(digits[|digits| - 7..])
    else if |digits| > 0 then Some(digits)
    else None
  }

  function DigitValue(c: char): (v: nat)
    requires IsDigit(c)
    ensures v <= 9
  {
    (c - '0') as nat
  }

  /** `Number(candidate)` on a string of digits: its decimal value. `n`
      digits are worth less than `10^n`, so a candidate is at most 9999999
      and `Number.isFinite` always holds of it. */
  function DecimalValue(ds: string): (v: nat)
    requires AllDigits(ds)
    ensures v < Pow10(|ds|)
  {
    if ds == [] then 0
    else DecimalValue(ds[..|ds| - 1]) * 10 + DigitValue(ds[|ds| - 1])
  }

  function Pow10(n: nat): (p: nat)
    ensures p >= 1
  {
    if n == 0 then 1 else 10 * Pow10(n - 1)
  }

  /** Leading zeros do not change the value. */
  lemma {:induction false} LeadingZero(ds: string)
    requires AllDigits(ds)
    ensures DecimalValue("0" + ds) == DecimalValue(ds)
  {
    if ds != [] {
      var n := |ds| - 1;
      assert ("0" + ds)[..|ds|] == "0" + ds[..n];
      LeadingZero(ds[..n]);
    }
  }

  /** The JSON body of a successful OCR call. */
  datatype OcrResult = OcrResult(value: Option<nat>, rawText: string, digitsOnly: string, message: Option<string>)

  /** What `handleOdometerOcr` answers for the recognised text `fullText`
      (`""` when the OCR service found none). */
  function ReadOdometer(fullText: string): (r: OcrResult)
    ensures fullText == "" ==> r == OcrResult(None, "", "", Some("No text detected"))
    ensures fullText != "" ==> r.rawText == fullText && r.digitsOnly == DigitsOnly(fullText) && r.message.None?
    ensures r.value.Some? <==> DigitsOnly(fullText) != []
    ensures r.value.Some? ==> var c := Candidate(DigitsOnly(fullText)).value;
                              AllDigits(c) && r.value.value == DecimalValue(c) && r.value.value <= 9999999
  {
    if fullText == "" then OcrResult(None, "", "", Some("No text detected"))
    else
      var digitsOnly := DigitsOnly(fullText);
      match Candidate(digitsOnly)
      case None => OcrResult(None, fullText, digitsOnly, None)
      case Some(c) =>
        assert AllDigits(c) by {
          forall i | 0 <= i < |c| ensures IsDigit(c[i]) {
            assert c[i] == digitsOnly[|digitsOnly| - |c| + i];
          }
        }
        assert Pow10(|c|) <= 10000000 by {
          Pow10Mono(|c|, 7);
        }
        OcrResult(Some(DecimalValue(c)), fullText, digitsOnly, None)
  }

  lemma {:induction false} Pow10Mono(m: nat, n: nat)
    requires m <= n
    ensures Pow10(m) <= Pow10(n)
  {
    if m < n {
      Pow10Mono(m, n - 1);
    }
  }

  /** One more digit on the right: ten times the value, plus the digit. */
  lemma DecimalValueSnoc(ds: string, c: char)
    requires AllDigits(ds) && IsDigit(c)
    ensures AllDigits(ds + [c])
    ensures DecimalValue(ds + [c]) == DecimalValue(ds) * 10 + DigitValue(c)
  {
    assert (ds + [c])[..|ds|] == ds;
  }

  /** The values of the digit strings the examples below end with. */
  lemma DecimalValueOfDigits()
    ensures DecimalValue("12345") == 12345
    ensures DecimalValue("4567890") == 4567890
  {
    DecimalValueSnoc("", '1');
    assert "" + ['1'] == "1";
    DecimalValueSnoc("1", '2');
    assert "1" + ['2'] == "12";
    DecimalValueSnoc("12", '3');
    assert "12" + ['3'] == "123";
    DecimalValueSnoc("123", '4');
    assert "123" + ['4'] == "1234";
    DecimalValueSnoc("1234", '5');
    assert "1234" + ['5'] == "12345";
    DecimalValueSnoc("", '4');
    assert "" + ['4'] == "4";
    DecimalValueSnoc("4", '5');
    assert "4" + ['5'] == "45";
    DecimalValueSnoc("45", '6');
    assert "45" + ['6'] == "456";
    DecimalValueSnoc("456", '7');
    assert "456" + ['7'] == "4567";
    DecimalValueSnoc("4567", '8');
    assert "4567" + ['8'] == "45678";
    DecimalValueSnoc("45678", '9');
    assert "45678" + ['9'] == "456789";
    DecimalValueSnoc("456789", '0');
    assert "456789" + ['0'] == "4567890";
  }

  lemma DigitsOfOdoText()
    ensures DigitsOnly("odo 012345 km") == "012345"
  {
    DigitsOnlyOfDigits("012345");
    DigitsOnlyEmpty("odo ");
    DigitsOnlyEmpty(" km");
    DigitsOnlyAppend("odo ", "012345");
    DigitsOnlyAppend("odo 012345", " km");
    assert "odo " + "012345" == "odo 012345";
    assert "odo 012345" + " km" == "odo 012345 km";
  }

  /** A leading zero is dropped. */
  lemma OcrDropsLeadingZero()
    ensures ReadOdometer("odo 012345 km").value == Some(12345)
  {
    DigitsOfOdoText();
    assert Candidate("012345") == Some("012345");
    LeadingZero("12345");
    assert "0" + "12345" == "012345";
    DecimalValueOfDigits();
  }

  /** Only the last seven digits count. */
  lemma OcrKeepsLastSeven()
    ensures ReadOdometer("1234567890").value == Some(4567890)
  {
    DigitsOnlyOfDigits("1234567890");
    assert "1234567890"[3..] == "4567890";
    DecimalValueOfDigits();
  }

  /** Text without digits has no value. */
  lemma OcrNoDigits()
    ensures ReadOdometer("km").value == None
  {
    DigitsOnlyEmpty("km");
  }

  // ---- configuration ----

  /** `cfgRow ? Number(cfgRow.value) : 0.2`; `None` stands for NaN. */
  function WearRateFromConfig(row: Option<string>, number: NumberParser): (rate: Option<real>)
    ensures row.None? ==> rate == Some(0.2)
    ensures row.Some? ==> rate == number(row.value)
  {
    match row
    case None => Some(0.2)
    case Some(value) => number(value)
  }

  // ---- CORS ----

  /** `request.headers.get("Origin") || "*"`. */
  function RequestOrigin(header: Option<string>): (origin: string)
    ensures origin != ""
    ensures header.None? || header.value == "" ==> origin == "*"
    ensures header.Some? && header.value != "" ==> origin == header.value
  {
    if header.Some? && header.value != "" then header.value else "*"
  }

  /** The `Access-Control-Allow-Origin` value: `"*"` for the origin
      `"null"`, the origin itself otherwise. */
  function AllowOrigin(origin: string): (allowed: string)
    ensures allowed != "null"
    ensures origin != "null" ==> allowed == origin
  {
    if origin == "null" then "*" else origin
  }

  /** `makeCorsHeaders(origin)`, in declaration order. */
  function CorsHeaders(origin: string): (headers: seq<(string, string)>)
    ensures |headers| == 4
    ensures headers[0] == ("Access-Control-Allow-Origin", AllowOrigin(origin))
  {
    [("Access-Control-Allow-Origin", AllowOrigin(origin)),
     ("Access-Control-Allow-Methods", "GET,POST,PUT,OPTIONS"),
     ("Access-Control-Allow-Headers", "Content-Type"),
     ("Access-Control-Max-Age", "86400")]
  }

  /** Every response allows the requesting origin, or any origin when the
      request named none, an empty one or `"null"`. */
  lemma AllowOriginOfRequest(header: Option<string>)
    ensures var allowed := AllowOrigin(RequestOrigin(header));
            && (allowed == "*" <==> header.None? || header.value in {"", "null", "*"})
            && (allowed != "*" ==> header == Some(allowed))
  {
  }
}
