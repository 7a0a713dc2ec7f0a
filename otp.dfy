/** `generateOtp(length = 6, expiresInMinutes = 15)` and the OTP check every
    controller repeats. The random digits (`Math.floor(Math.random() * 10)`) and the
    clock (`Date.now()`, milliseconds) are inputs. */
module Otp {
  import opened Wrappers
  import opened Text

  const DefaultLength: nat := 6
  const DefaultExpiresInMinutes: nat := 15

  /** The object `{ otp, otpExpires }` the generator returns. */
  datatype Challenge = Challenge(otp: string, otpExpires: int)

  /** What `length` draws of `Math.floor(Math.random() * 10)` can give. */
  predicate IsDigitSource(digits: seq<nat>, length: nat)
  {
    |digits| == length && forall i :: 0 <= i < |digits| ==> digits[i] < 10
  }

  /** `.join('')` of single-digit numbers. */
  function JoinDigits(digits: seq<nat>): (s: string)
    requires forall i :: 0 <= i < |digits| ==> digits[i] < 10
    ensures |s| == |digits|
    ensures forall i :: 0 <= i < |s| ==> s[i] == DigitChar(digits[i])
  {
    if digits == [] then "" else [DigitChar(digits[0])] + JoinDigits(digits[1..])
  }

  /** The generator: a code of exactly `length` decimal digits, the i-th being the i-th
      draw (so leading zeros stay), expiring `expiresInMinutes` minutes after `now`. */
  function GenerateOtp(digits: seq<nat>, now: int, length: nat := DefaultLength,
                       expiresInMinutes: nat := DefaultExpiresInMinutes): (c: Challenge)
    requires IsDigitSource(digits, length)
    ensures |c.otp| == length && AllDigits(c.otp)
    ensures forall i :: 0 <= i < length ==> DigitValue(c.otp[i]) == digits[i]
    ensures c.otpExpires - now == expiresInMinutes * 60 * 1000
  {
    Challenge(JoinDigits(digits), now + expiresInMinutes * 60 * 1000)
  }

  /** With the defaults every handler uses: six digits, valid for 900000 ms. */
  lemma DefaultChallenge(digits: seq<nat>, now: int)
    requires IsDigitSource(digits, DefaultLength)
    ensures |GenerateOtp(digits, now).otp| == 6
    ensures GenerateOtp(digits, now).otpExpires == now + 900000
  {
  }

  function DigitsOf(code: string): (ds: seq<nat>)
    requires AllDigits(code)
    ensures IsDigitSource(ds, |code|)
    ensures forall i :: 0 <= i < |code| ==> ds[i] == DigitValue(code[i])
  {
    if code == [] then [] else [DigitValue(code[0])] + DigitsOf(code[1..])
  }

  /** Every string of decimal digits, "000000" included, is a code the generator can give. */
  lemma EveryCodeIsGenerated(code: string, now: int)
    requires AllDigits(code)
    ensures GenerateOtp(DigitsOf(code), now, |code|).otp == code
  {
    var ds := DigitsOf(code);
    var c := JoinDigits(ds);
    forall i | 0 <= i < |code| ensures c[i] == code[i] {
      var ch := code[i];
      assert c[i] == DigitChar(DigitValue(ch));
      assert ('0' as int + (ch as int - '0' as int)) as char == ch;
    }
    assert c == code;
  }

  /** The guard `if (!otp || !otpExpires)` after each call: an empty code or a zero expiry. */
  predicate IsFalsy(c: Challenge) { c.otp == "" || c.otpExpires == 0 }

  /** With the defaults and a clock that is not negative that guard never fires. */
  lemma DefaultChallengeNotFalsy(digits: seq<nat>, now: nat)
    requires IsDigitSource(digits, DefaultLength)
    ensures !IsFalsy(GenerateOtp(digits, now))
  {
  }

  /** The check `record.otp !== otp || record.otpExpires < Date.now()`. A missing
      `otpExpires` is `undefined`, and `undefined < now` is false. */
  predicate OtpRejected(stored: Option<string>, expires: Option<int>, given: string, now: int)
  {
    stored != Some(given) || (expires.Some? && expires.value < now)
  }

  /** A stored challenge accepts its own code up to and including the millisecond of
      expiry, and from the next millisecond on rejects it; any other code is rejected. */
  lemma ChallengeWindow(c: Challenge, given: string, now: int)
    ensures !OtpRejected(Some(c.otp), Some(c.otpExpires), given, now)
        <==> given == c.otp && now <= c.otpExpires
  {
  }
}
