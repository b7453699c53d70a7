/** The e-mail verification codes of chatbot_app/models.py. Times are
    whole microseconds on one clock; the current time is a parameter. */
module EmailVerification {

  /** `timedelta(minutes=15)` in microseconds. */
  const ValidWindow: int := 15 * 60 * 1000000

  datatype Verification = Verification(email: string, code: string, createdAt: int)
  {
    /** `is_valid()` at time `now`. */
    predicate IsValid(now: int)
    {
      createdAt >= now - ValidWindow
    }
  }

  /** A code is valid exactly while at most fifteen minutes have passed
      since it was created, the boundary included. */
  lemma ValidWithinWindow(v: Verification, now: int)
    ensures v.IsValid(now) <==> now - v.createdAt <= ValidWindow
    ensures v.IsValid(v.createdAt + ValidWindow)
    ensures !v.IsValid(v.createdAt + ValidWindow + 1)
  {
  }

  /** A code is valid when created, and once invalid it stays invalid. */
  lemma ValidityOnlyLapses(v: Verification, now: int, later: int)
    requires now <= later
    ensures v.IsValid(v.createdAt)
    ensures !v.IsValid(now) ==> !v.IsValid(later)
  {
  }
}
