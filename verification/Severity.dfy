/** The deterministic severity score, in exact arithmetic.

    The raw score times 100 is 40 * log2(m) / 7 + q / 4, where m is the effective resource
    count plus one, capped where the scope factor reaches 1, and q counts quarter points of
    environment and exposure. It is at least h / 2 exactly when m^160 * 2^(7q) >= 2^(14h). */
module Severity {
  datatype Bucket = Low | Medium | High | Critical

  // ---- integer powers ----

  function Pow(b: nat, n: nat): (p: nat)
    ensures b > 0 ==> p > 0
    decreases n, b
  {
    if n == 0 then 1 else b * Pow(b, n - 1)
  }

  lemma {:induction false} PowAdd(b: nat, m: nat, n: nat)
    ensures Pow(b, m + n) == Pow(b, m) * Pow(b, n)
  {
    if m > 0 {
      PowAdd(b, m - 1, n);
      Associative(b, Pow(b, m - 1), Pow(b, n));
    }
  }

  lemma Associative(a: nat, b: nat, c: nat)
    ensures a * (b * c) == a * b * c
  {}

  lemma {:induction false} PowOfProduct(a: nat, b: nat, n: nat)
    ensures Pow(a * b, n) == Pow(a, n) * Pow(b, n)
  {
    if n > 0 {
      PowOfProduct(a, b, n - 1);
      Rearrange(a, b, Pow(a, n - 1), Pow(b, n - 1));
    }
  }

  lemma Rearrange(a: nat, b: nat, c: nat, d: nat)
    ensures a * b * (c * d) == a * c * (b * d)
  {}

  lemma Times(a: nat, b: nat, c: nat, d: nat)
    requires a <= b && c <= d
    ensures a * c <= b * d
  {}

  lemma {:induction false} PowOfPow(b: nat, m: nat, n: nat)
    ensures Pow(Pow(b, m), n) == Pow(b, m * n)
  {
    if n > 0 {
      PowOfPow(b, m, n - 1);
      PowAdd(b, m, m * (n - 1));
      assert m + m * (n - 1) == m * n;
    }
  }

  lemma {:induction false} PowBase(a: nat, b: nat, n: nat)
    requires a <= b
    ensures Pow(a, n) <= Pow(b, n)
  {
    if n > 0 {
      PowBase(a, b, n - 1);
      Times(a, b, Pow(a, n - 1), Pow(b, n - 1));
    }
  }

  lemma {:induction false} Pow2Order(m: nat, n: nat)
    ensures m <= n <==> Pow(2, m) <= Pow(2, n)
    ensures m == n <==> Pow(2, m) == Pow(2, n)
    decreases m + n
  {
    if m > 0 && n > 0 {
      Pow2Order(m - 1, n - 1);
    }
  }

  // ---- the factors ----

  /** log2(m) / 7 is the scope factor; a high-privilege resource counts twice, and the
      factor stops at 1, where m is 128. */
  function ScopeBase(resources: nat, highPriv: nat): (m: nat)
    ensures 1 <= m <= 128
  {
    var effective := resources + highPriv;
    if effective == 0 then 1 else if effective + 1 <= 128 then effective + 1 else 128
  }

  // Tenths, from the table of environments.
  function EnvTenths(environment: string): (e: nat)
    ensures 2 <= e <= 10
  {
    if environment == "prod" then 10
    else if environment == "staging" then 6
    else if environment == "dev" then 3
    else if environment == "unknown" then 5
    else if environment == "production" then 10
    else if environment == "development" then 3
    else if environment == "test" then 2
    else 5
  }

  // Twentieths, from the tables of exposures and secret types.
  function ExposureBase(exposure: string): (x: nat)
    ensures 2 <= x <= 20
  {
    if exposure == "public_leak" then 20
    else if exposure == "live_inferred" then 14
    else if exposure == "inactive" then 2
    else if exposure == "unknown" then 10
    else if exposure == "confirmed" then 16
    else if exposure == "suspected" then 10
    else 10
  }

  function TypeBump(secretType: string): (x: nat)
    ensures x <= 3
  {
    if secretType in {"aws_access_key", "iam_access_key", "private_key"} then 3
    else if secretType in {"database_url", "database", "github_token"} then 2
    else if secretType in {"api_key", "oauth_token"} then 1
    else 0
  }

  function ExposureTwentieths(exposure: string, secretType: string): (x: nat)
    ensures 2 <= x <= 20
  {
    var sum := ExposureBase(exposure) + TypeBump(secretType);
    if sum <= 20 then sum else 20
  }

  /** 25 * environment + 35 * exposure, in quarter points. */
  function Quarters(environment: string, exposure: string, secretType: string): (q: nat)
    ensures q <= 240
  {
    10 * EnvTenths(environment) + 7 * ExposureTwentieths(exposure, secretType)
  }

  // ---- comparing and rounding the raw score ----

  /** The raw score 40 * log2(m) / 7 + q / 4 is at least h / 2. */
  predicate AtLeast(m: nat, q: nat, h: nat) {
    Pow(m, 160) * Pow(2, 7 * q) >= Pow(2, 14 * h)
  }

  predicate Above(m: nat, q: nat, h: nat) {
    Pow(m, 160) * Pow(2, 7 * q) > Pow(2, 14 * h)
  }

  /** The raw score rounds to more than r: it is past r + 1/2, or on it and r is odd. */
  predicate Past(m: nat, q: nat, r: nat) {
    if r % 2 == 0 then Above(m, q, 2 * r + 1) else AtLeast(m, q, 2 * r + 1)
  }

  /** r is the raw score rounded to the nearest integer, halves to the even one. */
  predicate Rounds(m: nat, q: nat, r: nat) {
    (r > 0 ==> Past(m, q, r - 1)) && !Past(m, q, r)
  }

  lemma PastOrder(m: nat, q: nat, r: nat, s: nat)
    requires r <= s && Past(m, q, s)
    ensures Past(m, q, r)
  {
    hide AtLeast, Above;
    AboveIsAtLeast(m, q, 2 * s + 1);
    if r < s {
      Threshold(m, q, 2 * r + 1, 2 * s + 1);
      AboveIsAtLeast(m, q, 2 * r + 1);
    }
  }

  lemma Threshold(m: nat, q: nat, h: nat, h': nat)
    requires h < h' && AtLeast(m, q, h')
    ensures Above(m, q, h)
  {
    Pow2Order(14 * h, 14 * h');
    hide Pow;
  }

  lemma Monotone(m: nat, q: nat, m': nat, q': nat, h: nat)
    requires m <= m' && q <= q'
    ensures AtLeast(m, q, h) ==> AtLeast(m', q', h)
    ensures Above(m, q, h) ==> Above(m', q', h)
  {
    PowBase(m, m', 160);
    Pow2Order(7 * q, 7 * q');
    hide Pow;
    Times(Pow(m, 160), Pow(m', 160), Pow(2, 7 * q), Pow(2, 7 * q'));
  }

  /** The raw score is at most 40 + q / 4, */
  lemma Ceiling(m: nat, q: nat, h: nat)
    requires m <= 128 && 160 + q <= 2 * h
    ensures !Above(m, q, h)
  {
    assert m <= Pow(2, 7);
    CeilingPower(m, 160, 7 * q, 14 * h);
    hide Pow;
  }

  lemma CeilingPower(m: nat, n: nat, e: nat, f: nat)
    requires m <= Pow(2, 7) && 7 * n + e <= f
    ensures Pow(m, n) * Pow(2, e) <= Pow(2, f)
  {
    hide Pow;
    PowBase(m, Pow(2, 7), n);
    PowOfPow(2, 7, n);
    PowAdd(2, 7 * n, e);
    Times(Pow(m, n), Pow(2, 7 * n), Pow(2, e), Pow(2, e));
    Pow2Order(7 * n + e, f);
  }

  /** and reaches it when the scope factor is 1. */
  lemma Floor(m: nat, q: nat, h: nat)
    requires m == 128 && 2 * h <= 160 + q
    ensures AtLeast(m, q, h)
  {
    assert Pow(2, 7) == m;
    FloorPower(m, 160, 7 * q, 14 * h);
    hide Pow;
  }

  lemma FloorPower(m: nat, n: nat, e: nat, f: nat)
    requires m == Pow(2, 7) && f <= 7 * n + e
    ensures Pow(m, n) * Pow(2, e) >= Pow(2, f)
  {
    hide Pow;
    PowOfPow(2, 7, n);
    PowAdd(2, 7 * n, e);
    Pow2Order(f, 7 * n + e);
  }

  /** Rounding has one result. */
  lemma RoundsOnce(m: nat, q: nat, r: nat, s: nat)
    requires Rounds(m, q, r) && Rounds(m, q, s)
    ensures r == s
  {
    hide Past;
    if r < s {
      PastOrder(m, q, r, s - 1);
    }
    if s < r {
      PastOrder(m, q, s, r - 1);
    }
  }

  lemma AboveIsAtLeast(m: nat, q: nat, h: nat)
    ensures Above(m, q, h) ==> AtLeast(m, q, h)
  {
    hide Pow;
  }

  // The search stops because the raw score is at most 100.
  function RoundFrom(m: nat, q: nat, r: nat): (s: nat)
    requires m <= 128 && q <= 240 && r <= 100
    requires r > 0 ==> Past(m, q, r - 1)
    ensures s <= 100 && Rounds(m, q, s)
    decreases 100 - r
  {
    hide Past;
    if Past(m, q, r) then
      AtMost100(m, q, r);
      RoundFrom(m, q, r + 1)
    else
      r
  }

  lemma AtMost100(m: nat, q: nat, r: nat)
    requires m <= 128 && q <= 240 && r <= 100 && Past(m, q, r)
    ensures r < 100
  {
    hide AtLeast, Above;
    if r == 100 {
      Ceiling(m, q, 201);
    }
  }

  function ToBucket(score: nat): Bucket {
    if score >= 80 then Critical else if score >= 60 then High else if score >= 35 then Medium else Low
  }

  function Rank(b: Bucket): nat {
    match b case Low => 0 case Medium => 1 case High => 2 case Critical => 3
  }

  datatype Labels = Labels(environment: string, exposure: string, secretType: string)

  function QuartersOf(labels: Labels, lower: string -> string): (q: nat)
    ensures q <= 240
  {
    Quarters(lower(labels.environment), lower(labels.exposure), lower(labels.secretType))
  }

  datatype Assessment = Assessment(score: nat, bucket: Bucket)

  function Score(resources: nat, highPriv: nat, labels: Labels, lower: string -> string): (a: Assessment)
    ensures a.score <= 100
    ensures Rounds(ScopeBase(resources, highPriv), QuartersOf(labels, lower), a.score)
  {
    hide AtLeast, Above, ScopeBase, QuartersOf, Rounds;
    var rounded := RoundFrom(ScopeBase(resources, highPriv), QuartersOf(labels, lower), 0);
    var score := if rounded < 100 then rounded else 100;
    Assessment(score, ToBucket(score))
  }

  // ---- what the score means ----

  /** A larger raw score never rounds to less. */
  lemma RoundsMonotone(m: nat, q: nat, r: nat, m': nat, q': nat, r': nat)
    requires m <= m' && q <= q' && Rounds(m, q, r) && Rounds(m', q', r')
    ensures r <= r'
  {
    if r' < r {
      assert Past(m', q', r - 1) by {
        hide AtLeast, Above;
        Monotone(m, q, m', q', 2 * r - 1);
      }
      hide Past;
      PastOrder(m', q', r', r - 1);
    }
  }

  /** More resources or more privilege never lower the score or the bucket. */
  lemma ScoreMonotone(n: nat, p: nat, n': nat, p': nat, labels: Labels, lower: string -> string)
    requires n + p <= n' + p'
    ensures var a := Score(n, p, labels, lower);
            var b := Score(n', p', labels, lower);
            a.score <= b.score && Rank(a.bucket) <= Rank(b.bucket)
  {
    var q := QuartersOf(labels, lower);
    hide Rounds, QuartersOf;
    RoundsMonotone(ScopeBase(n, p), q, Score(n, p, labels, lower).score,
                   ScopeBase(n', p'), q, Score(n', p', labels, lower).score);
  }

  /** From 127 effective resources on, the counts no longer matter. */
  lemma Saturates(n: nat, p: nat, n': nat, p': nat, labels: Labels, lower: string -> string)
    requires n + p >= 127 && n' + p' >= 127
    ensures Score(n, p, labels, lower) == Score(n', p', labels, lower)
  {
    hide Rounds, QuartersOf;
  }

  /** At the saturation point of a leaked production secret the score is 100. */
  lemma TopScore(n: nat, p: nat, labels: Labels, lower: string -> string)
    requires n + p >= 127
    requires lower(labels.environment) in {"prod", "production"} && lower(labels.exposure) == "public_leak"
    ensures Score(n, p, labels, lower).score == 100
  {
    var m, q := ScopeBase(n, p), QuartersOf(labels, lower);
    var s := Score(n, p, labels, lower).score;
    assert m == 128 && q == 240;
    hide AtLeast, Above, ScopeBase, QuartersOf;
    Reaches(m, q, s, 100);
    Floor(m, q, 199);
  }

  /** An inactive secret is never critical. */
  lemma InactiveNotCritical(n: nat, p: nat, labels: Labels, lower: string -> string)
    requires lower(labels.exposure) == "inactive"
    ensures Score(n, p, labels, lower).score <= 74
    ensures Score(n, p, labels, lower).bucket != Critical
  {
    var m, q := ScopeBase(n, p), QuartersOf(labels, lower);
    var s := Score(n, p, labels, lower).score;
    assert q <= 135 && m <= 128;
    hide AtLeast, Above, ScopeBase, QuartersOf;
    Reaches(m, q, s, 75);
    Ceiling(m, q, 149);
  }

  /** Where the buckets begin: at raw scores 79.5 and 59.5, and above 34.5. */
  lemma BucketExactly(n: nat, p: nat, labels: Labels, lower: string -> string)
    ensures var m, q := ScopeBase(n, p), QuartersOf(labels, lower);
            var b := Score(n, p, labels, lower).bucket;
            && (b == Critical <==> AtLeast(m, q, 159))
            && (b == Critical || b == High <==> AtLeast(m, q, 119))
            && (b == Low <==> !Above(m, q, 69))
  {
    var m, q := ScopeBase(n, p), QuartersOf(labels, lower);
    var s := Score(n, p, labels, lower).score;
    hide AtLeast, Above, ScopeBase, QuartersOf;
    Reaches(m, q, s, 80);
    Reaches(m, q, s, 60);
    Reaches(m, q, s, 35);
  }

  lemma Reaches(m: nat, q: nat, s: nat, t: nat)
    requires Rounds(m, q, s) && t > 0
    ensures s >= t <==> Past(m, q, t - 1)
  {
    hide Past;
    if s >= t {
      PastOrder(m, q, t - 1, s - 1);
    } else if Past(m, q, t - 1) {
      PastOrder(m, q, s, t - 1);
    }
  }

  /** Diminishing returns: doubling the reach adds at most six points. */
  lemma DoublingAddsSix(n: nat, p: nat, n': nat, p': nat, labels: Labels, lower: string -> string)
    requires n' + p' <= 2 * (n + p) + 1
    ensures Score(n', p', labels, lower).score <= Score(n, p, labels, lower).score + 6
  {
    var q := QuartersOf(labels, lower);
    hide *;
    DoubledRounds(ScopeBase(n, p), q, Score(n, p, labels, lower).score,
                  ScopeBase(n', p'), Score(n', p', labels, lower).score) by {
      DoubledBase(n, p, n', p');
    }
  }

  lemma DoubledBase(n: nat, p: nat, n': nat, p': nat)
    requires n' + p' <= 2 * (n + p) + 1
    ensures ScopeBase(n', p') <= 2 * ScopeBase(n, p)
  {}

  lemma DoubledRounds(m: nat, q: nat, s: nat, m': nat, s': nat)
    requires m' <= 2 * m && Rounds(m, q, s) && Rounds(m', q, s')
    ensures s' <= s + 6
  {
    hide AtLeast, Above;
    AboveIsAtLeast(m, q, 2 * s + 1);
    Doubled(m, q, 2 * s + 1);
    Reaches(m', q, s', s + 7);
    AboveIsAtLeast(m', q, 2 * s + 13);
    Monotone(m', q, 2 * m, q, 2 * s + 13);
  }

  lemma Doubled(m: nat, q: nat, h: nat)
    requires !Above(m, q, h)
    ensures !AtLeast(2 * m, q, h + 12)
  {
    PowOfProduct(2, m, 160);
    PowAdd(2, 160, 14 * h);
    Pow2Order(160 + 14 * h, 14 * (h + 12) - 1);
    Pow2Order(14 * (h + 12), 14 * (h + 12) - 1);
    hide Pow;
    Associative(Pow(2, 160), Pow(m, 160), Pow(2, 7 * q));
    Times(Pow(2, 160), Pow(2, 160), Pow(m, 160) * Pow(2, 7 * q), Pow(2, 14 * h));
  }
}
