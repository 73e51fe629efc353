/** The one-time-password gate of app/Auth/otp_service.py: a module-global,
    single-slot dictionary from e-mail address to the last code issued for it.
    The dictionary itself is the `otps` field of `Backend.Store`; this module
    holds what the two functions compute over it. */
module OtpService {
  import opened Results
  import opened Text

  /** The bounds `randint(100000, 999999)` draws from, both inclusive. */
  const OtpMin: nat := 100000
  const OtpMax: nat := 999999

  /** What every issued code looks like: six decimal digits, the first not zero. */
  predicate IsOtpCode(code: string) {
    |code| == 6 && AllDigits(code) && code[0] != '0'
  }

  /** `str(randint(100000, 999999))` once the random draw `n` is made. */
  function OtpCode(n: nat): (code: string)
    requires OtpMin <= n <= OtpMax
    ensures IsOtpCode(code)
    ensures DecimalValue(code) == n
  {
    DecimalLength(n, 6);
    DecimalRoundTrip(n);
    DecimalString(n)
  }

  /** `OTP_STORE[email] = otp`: the code is stored under that e-mail, replacing
      any earlier one, and every other e-mail keeps what it had. */
  function Issue(store: map<string, string>, email: string, code: string): (r: map<string, string>)
    ensures email in r && r[email] == code
    ensures r.Keys == store.Keys + {email}
    ensures forall e :: e in store && e != email ==> r[e] == store[e]
  {
    store[email := code]
  }

  /** `OTP_STORE.get(email) == otp`. */
  function VerifyMockOtp(store: map<string, string>, email: string, otp: string): (ok: bool)
    ensures ok <==> email in store && store[email] == otp
  {
    (if email in store then Some(store[email]) else None) == Some(otp)
  }

  /** An e-mail address that was never issued a code never verifies. */
  lemma NeverIssuedNeverVerifies(store: map<string, string>, email: string, otp: string)
    requires email !in store
    ensures !VerifyMockOtp(store, email, otp)
  {
  }

  /** After a (re-)issue, exactly the new code verifies for that e-mail: a stale
      code fails unless it happens to equal the new one. */
  lemma OnlyLatestCodeVerifies(store: map<string, string>, email: string, code: string, otp: string)
    ensures VerifyMockOtp(Issue(store, email, code), email, otp) <==> otp == code
  {
  }

  /** Issuing for one e-mail does not change whether any code verifies for another. */
  lemma IssueKeepsOtherEmails(store: map<string, string>, email: string, code: string,
                              other: string, otp: string)
    requires other != email
    ensures VerifyMockOtp(Issue(store, email, code), other, otp) == VerifyMockOtp(store, other, otp)
  {
  }
}
