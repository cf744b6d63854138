/** The clock, made an explicit input. The pages read the current instant as
    an ISO 8601 UTC timestamp and keep the part before the 'T' as a record's
    date and the first seven characters as its billing period. Here each such
    clock read is a parameter of the operation that makes it. */
module Clock {

  /** The date part of a timestamp: everything before the first 'T'. */
  function DatePart(iso: string): (d: string)
    ensures |d| <= |iso| && d == iso[..|d|]
    ensures 'T' !in d
    ensures |d| < |iso| ==> iso[|d|] == 'T'
  {
    if |iso| == 0 || iso[0] == 'T' then "" else [iso[0]] + DatePart(iso[1..])
  }

  /** The "YYYY-MM" period: the first seven characters, or all of a shorter string. */
  function MonthPart(iso: string): (m: string)
    ensures |m| == if |iso| < 7 then |iso| else 7
    ensures m == iso[..|m|]
  {
    if |iso| < 7 then iso else iso[..7]
  }

  /** The shape of an ISO 8601 UTC timestamp: ten date characters, then 'T'. */
  predicate IsIsoTimestamp(iso: string) {
    |iso| > 10 && iso[10] == 'T' && forall i :: 0 <= i < 10 ==> iso[i] != 'T'
  }

  /** For a real timestamp the period is the first seven characters of the date. */
  lemma {:induction false} PeriodOfDate(iso: string)
    requires IsIsoTimestamp(iso)
    ensures |DatePart(iso)| == 10
    ensures MonthPart(iso) == DatePart(iso)[..7]
  {
    var d := DatePart(iso);
    if |d| < 10 {
      assert false;
    }
    if |d| > 10 {
      assert false;
    }
  }
}
