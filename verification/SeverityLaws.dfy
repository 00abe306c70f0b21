/** What each label and the reach are worth, as laws of the score. */
module SeverityLaws {
  import opened Severity

  // ---- points ----

  /** Adding `2 * e` quarter points moves every comparison by `e` half points. */
  lemma Shift(m: nat, q: nat, h: nat, e: nat)
    ensures AtLeast(m, q + 2 * e, h + e) <==> AtLeast(m, q, h)
    ensures Above(m, q + 2 * e, h + e) <==> Above(m, q, h)
  {
    PowAdd(2, 7 * q, 14 * e);
    PowAdd(2, 14 * h, 14 * e);
    assert 7 * (q + 2 * e) == 7 * q + 14 * e && 14 * (h + e) == 14 * h + 14 * e;
    var p, x, y, z := Pow(m, 160), Pow(2, 7 * q), Pow(2, 14 * h), Pow(2, 14 * e);
    hide Pow;
    Associative(p, x, z);
    Cancel(p * x, y, z);
  }

  lemma Cancel(a: nat, b: nat, c: nat)
    requires c > 0
    ensures a * c >= b * c <==> a >= b
    ensures a * c > b * c <==> a > b
  {
  }

  lemma Between(m: nat, q: nat, d: nat, low: nat, high: nat)
    requires Pow(2, low) <= Pow(m, 160) * Pow(2, 7 * q)
    requires Pow(m, 160) * Pow(2, 7 * (q + d)) <= Pow(2, high)
    ensures low + 7 * d <= high
  {
    PowAdd(2, 7 * q, 7 * d);
    PowAdd(2, low, 7 * d);
    assert 7 * (q + d) == 7 * q + 7 * d;
    var p, x, y, z := Pow(m, 160), Pow(2, 7 * q), Pow(2, low), Pow(2, 7 * d);
    Pow2Order(low + 7 * d, high);
    hide Pow;
    Associative(p, x, z);
    Cancel(p * x, y, z);
  }

  lemma PositivePower(m: nat, n: nat)
    requires m > 0
    ensures Pow(m, n) >= 1
  {
  }

  lemma AtLeastZero(m: nat, q: nat)
    requires m > 0
    ensures Pow(2, 0) <= Pow(m, 160) * Pow(2, 7 * q)
  {
    PositivePower(m, 160);
    PositivePower(2, 7 * q);
    assert Pow(2, 0) == 1;
    hide Pow;
    Times(1, Pow(m, 160), 1, Pow(2, 7 * q));
  }

  /** d more quarter points are worth d / 4 score points, up to the rounding of both. */
  lemma Gap(m: nat, q: nat, r: nat, d: nat, s: nat)
    requires m > 0 && Rounds(m, q, r) && Rounds(m, q + d, s)
    ensures d - 4 <= 4 * (s - r) <= d + 4
  {
    GapAtLeast(m, q, r, d, s);
    GapAtMost(m, q, r, d, s);
  }

  lemma GapAtLeast(m: nat, q: nat, r: nat, d: nat, s: nat)
    requires m > 0 && Rounds(m, q, r) && Rounds(m, q + d, s)
    ensures d - 4 <= 4 * (s - r)
  {
    hide Pow;
    if r > 0 {
      AboveIsAtLeast(m, q, 2 * r - 1);
      Between(m, q, d, 14 * (2 * r - 1), 14 * (2 * s + 1));
    } else {
      AtLeastZero(m, q);
      Between(m, q, d, 0, 14 * (2 * s + 1));
    }
  }

  lemma GapAtMost(m: nat, q: nat, r: nat, d: nat, s: nat)
    requires m > 0 && Rounds(m, q, r) && Rounds(m, q + d, s)
    ensures 4 * (s - r) <= d + 4
  {
    if s > 0 {
      assert AtLeast(m, q + d, 2 * s - 1) by {
        AboveIsAtLeast(m, q + d, 2 * s - 1);
        hide AtLeast, Above;
      }
      assert !Above(m, q, 2 * r + 1) by {
        AboveIsAtLeast(m, q, 2 * r + 1);
        hide AtLeast, Above;
      }
      hide Pow;
      AtMost(m, q, d, 14 * (2 * s - 1), 14 * (2 * r + 1));
    }
  }

  lemma AtMost(m: nat, q: nat, d: nat, low: nat, high: nat)
    requires Pow(2, low) <= Pow(m, 160) * Pow(2, 7 * (q + d))
    requires Pow(m, 160) * Pow(2, 7 * q) <= Pow(2, high)
    ensures low <= high + 7 * d
  {
    PowAdd(2, 7 * q, 7 * d);
    PowAdd(2, high, 7 * d);
    assert 7 * (q + d) == 7 * q + 7 * d;
    var p, x, y, z := Pow(m, 160), Pow(2, 7 * q), Pow(2, high), Pow(2, 7 * d);
    Pow2Order(low, high + 7 * d);
    hide Pow;
    Associative(p, x, z);
    Cancel(y, p * x, z);
  }

  lemma Parity(r: nat, e: nat)
    ensures (r + 2 * e) % 2 == r % 2
  {
  }

  lemma PastShift(m: nat, q: nat, r: nat, e: nat)
    ensures Past(m, q + 8 * e, r + 2 * e) <==> Past(m, q, r)
  {
    hide AtLeast, Above;
    Shift(m, q, 2 * r + 1, 4 * e);
    Parity(r, e);
  }

  /** An even number of whole points more is that many score points more. */
  lemma EvenPoints(m: nat, q: nat, r: nat, e: nat, s: nat)
    requires m > 0 && Rounds(m, q, r) && Rounds(m, q + 8 * e, s)
    ensures s == r + 2 * e
  {
    PastShift(m, q, r, e);
    if r > 0 {
      PastShift(m, q, r - 1, e);
    } else if e > 0 {
      Points(m, q, e);
    }
    hide Past;
    assert Rounds(m, q + 8 * e, r + 2 * e) by {
      assert r > 0 ==> r + 2 * e - 1 == r - 1 + 2 * e;
    }
    hide Rounds;
    RoundsOnce(m, q + 8 * e, r + 2 * e, s);
  }

  lemma Points(m: nat, q: nat, e: nat)
    requires m > 0 && e > 0
    ensures Past(m, q + 8 * e, 2 * e - 1)
  {
    AtLeastZero(m, q);
    assert AtLeast(m, q, 0);
    Shift(m, q, 0, 4 * e);
    hide AtLeast, Above;
    Threshold(m, q + 8 * e, 4 * e - 1, 4 * e);
    AboveIsAtLeast(m, q + 8 * e, 4 * e - 1);
    assert (2 * e - 1) % 2 == 1 && 2 * (2 * e - 1) + 1 == 4 * e - 1;
  }

  // ---- the reach ----

  /** With 2^k - 1 effective resources the raw score is 40 * k / 7 points above that of the
      labels alone. */
  lemma ReachAtPowers(k: nat, q: nat, h: nat)
    ensures AtLeast(Pow(2, k), q, h) <==> 160 * k + 7 * q >= 14 * h
    ensures Above(Pow(2, k), q, h) <==> 160 * k + 7 * q > 14 * h
  {
    PowerReach(k, 160, 7 * q, 14 * h);
    hide Pow;
  }

  lemma PowerReach(k: nat, n: nat, e: nat, f: nat)
    ensures Pow(Pow(2, k), n) * Pow(2, e) >= Pow(2, f) <==> k * n + e >= f
    ensures Pow(Pow(2, k), n) * Pow(2, e) > Pow(2, f) <==> k * n + e > f
  {
    PowOfPow(2, k, n);
    PowAdd(2, k * n, e);
    Pow2Order(f, k * n + e);
    Pow2Order(k * n + e, f);
    hide Pow;
  }

  lemma PastAtPowers(m: nat, k: nat, q: nat, r: nat)
    requires m == Pow(2, k)
    ensures Past(m, q, r) <==>
            if r % 2 == 0 then 160 * k + 7 * q > 14 * (2 * r + 1) else 160 * k + 7 * q >= 14 * (2 * r + 1)
  {
    ReachAtPowers(k, q, 2 * r + 1);
    hide AtLeast, Above, Pow;
  }

  /** At those reaches the score is 40 * k / 7 + q / 4 to the nearest integer, in 28ths. */
  lemma RoundsAtPowers(m: nat, k: nat, q: nat, r: nat)
    requires m == Pow(2, k) && Rounds(m, q, r)
    ensures -14 <= 28 * r - (160 * k + 7 * q) <= 14
    ensures 28 * r - (160 * k + 7 * q) in {-14, 14} ==> r % 2 == 0
  {
    hide Past, Pow;
    PastAtPowers(m, k, q, r);
    if r > 0 {
      PastAtPowers(m, k, q, r - 1);
    }
    Nearest(160 * k + 7 * q, r);
  }

  lemma Nearest(x: nat, r: nat)
    requires !(if r % 2 == 0 then x > 14 * (2 * r + 1) else x >= 14 * (2 * r + 1))
    requires r > 0 ==> if (r - 1) % 2 == 0 then x > 14 * (2 * (r - 1) + 1) else x >= 14 * (2 * (r - 1) + 1)
    ensures -14 <= 28 * r - x <= 14 && (28 * r - x in {-14, 14} ==> r % 2 == 0)
  {
    if r % 2 == 0 {
      assert r > 0 ==> (r - 1) % 2 == 1;
    } else {
      assert (r - 1) % 2 == 0;
    }
  }

  /** From 127 effective resources on, the reach is worth exactly 40 points. */
  lemma FullReachIsForty(n: nat, p: nat, labels: Labels, lower: string -> string)
    requires n + p >= 127
    ensures Score(n, p, labels, lower).score == Score(0, 0, labels, lower).score + 40
  {
    var q := QuartersOf(labels, lower);
    ReachBases(n, p);
    hide Pow, QuartersOf, ScopeBase, Score, Rounds;
    RoundsAtPowers(ScopeBase(0, 0), 0, q, Score(0, 0, labels, lower).score);
    RoundsAtPowers(ScopeBase(n, p), 7, q, Score(n, p, labels, lower).score);
    Forty(q, Score(0, 0, labels, lower).score, Score(n, p, labels, lower).score);
  }

  lemma ReachBases(n: nat, p: nat)
    requires n + p >= 127
    ensures ScopeBase(0, 0) == Pow(2, 0) && ScopeBase(n, p) == Pow(2, 7)
  {
  }

  lemma Forty(q: nat, r: nat, s: nat)
    requires -14 <= 28 * r - 7 * q <= 14 && (28 * r - 7 * q in {-14, 14} ==> r % 2 == 0)
    requires -14 <= 28 * s - (1120 + 7 * q) <= 14 && (28 * s - (1120 + 7 * q) in {-14, 14} ==> s % 2 == 0)
    ensures s == r + 40
  {
  }

  /** The score of the labels alone: their points, to the nearest integer, halves to even. */
  lemma NoReach(labels: Labels, lower: string -> string)
    ensures var q, r := QuartersOf(labels, lower), Score(0, 0, labels, lower).score;
            -2 <= 4 * r - q <= 2 && (4 * r - q in {-2, 2} ==> r % 2 == 0)
  {
    var m := ScopeBase(0, 0);
    assert m == 1 == Pow(2, 0);
    hide Pow, QuartersOf, ScopeBase, Score, Rounds;
    RoundsAtPowers(m, 0, QuartersOf(labels, lower), Score(0, 0, labels, lower).score);
  }

  // ---- the labels ----

  /** The score in the environment `e`, all else equal. */
  function EnvScore(n: nat, p: nat, labels: Labels, lower: string -> string, e: string): nat {
    Score(n, p, labels.(environment := e), lower).score
  }

  lemma InEnv(n: nat, p: nat, labels: Labels, lower: string -> string, e: string, tenths: nat)
    requires EnvTenths(lower(e)) == tenths
    ensures var x := ExposureTwentieths(lower(labels.exposure), lower(labels.secretType));
            Rounds(ScopeBase(n, p), 10 * tenths + 7 * x, EnvScore(n, p, labels, lower, e))
  {
    hide Rounds, ScopeBase, Score, EnvTenths, ExposureTwentieths;
  }

  /** Two environments: the difference of their tenths, at a quarter of a point per tenth
      and ten, up to the rounding; exact if it is four tenths, or none. */
  lemma EnvGap(n: nat, p: nat, labels: Labels, lower: string -> string, e: string, f: string, te: nat, tf: nat)
    requires EnvTenths(lower(e)) == te && EnvTenths(lower(f)) == tf && tf <= te
    ensures var gap := EnvScore(n, p, labels, lower, e) - EnvScore(n, p, labels, lower, f);
            && 10 * (te - tf) - 4 <= 4 * gap <= 10 * (te - tf) + 4
            && (te == tf ==> gap == 0) && (te == tf + 4 ==> gap == 10)
  {
    hide EnvTenths, ScopeBase, EnvScore, Rounds, ExposureTwentieths;
    var m, x := ScopeBase(n, p), ExposureTwentieths(lower(labels.exposure), lower(labels.secretType));
    InEnv(n, p, labels, lower, e, te);
    InEnv(n, p, labels, lower, f, tf);
    var r, s := EnvScore(n, p, labels, lower, f), EnvScore(n, p, labels, lower, e);
    assert 10 * te + 7 * x == 10 * tf + 7 * x + 10 * (te - tf);
    Gap(m, 10 * tf + 7 * x, r, 10 * (te - tf), s);
    if te == tf {
      RoundsOnce(m, 10 * te + 7 * x, r, s);
    }
    if te == tf + 4 {
      EvenPoints(m, 10 * tf + 7 * x, r, 5, s);
    }
  }

  /** What the environment is worth, with all else equal: production is ten points above
      staging and is written in two ways; */
  lemma ProductionOverStaging(n: nat, p: nat, labels: Labels, lower: string -> string)
    requires lower("prod") == "prod" && lower("production") == "production" && lower("staging") == "staging"
    ensures EnvScore(n, p, labels, lower, "prod") == EnvScore(n, p, labels, lower, "production")
    ensures EnvScore(n, p, labels, lower, "prod") == EnvScore(n, p, labels, lower, "staging") + 10
  {
    assert EnvTenths("prod") == EnvTenths("production") == 10 && EnvTenths("staging") == 6;
    hide EnvTenths, EnvScore;
    EnvGap(n, p, labels, lower, "prod", "production", 10, 10);
    EnvGap(n, p, labels, lower, "prod", "staging", 10, 6);
  }

  /** staging is 2.5 points above an unknown or unlisted environment; */
  lemma StagingOverUnknown(n: nat, p: nat, labels: Labels, lower: string -> string, other: string)
    requires lower("staging") == "staging" && lower("unknown") == "unknown"
    requires lower(other) !in {"prod", "production", "staging", "dev", "development", "test"}
    ensures 2 <= EnvScore(n, p, labels, lower, "staging") - EnvScore(n, p, labels, lower, "unknown") <= 3
    ensures EnvScore(n, p, labels, lower, "unknown") == EnvScore(n, p, labels, lower, other)
  {
    assert EnvTenths("staging") == 6 && EnvTenths("unknown") == 5 && EnvTenths(lower(other)) == 5;
    hide EnvTenths, EnvScore;
    EnvGap(n, p, labels, lower, "staging", "unknown", 6, 5);
    EnvGap(n, p, labels, lower, "unknown", other, 5, 5);
  }

  /** that is 5 points above development, which is written in two ways; */
  lemma UnknownOverDevelopment(n: nat, p: nat, labels: Labels, lower: string -> string)
    requires lower("unknown") == "unknown" && lower("dev") == "dev" && lower("development") == "development"
    ensures 4 <= EnvScore(n, p, labels, lower, "unknown") - EnvScore(n, p, labels, lower, "dev") <= 6
    ensures EnvScore(n, p, labels, lower, "dev") == EnvScore(n, p, labels, lower, "development")
  {
    assert EnvTenths("unknown") == 5 && EnvTenths("dev") == EnvTenths("development") == 3;
    hide EnvTenths, EnvScore;
    EnvGap(n, p, labels, lower, "unknown", "dev", 5, 3);
    EnvGap(n, p, labels, lower, "dev", "development", 3, 3);
  }

  /** and development is 2.5 points above test. */
  lemma DevelopmentOverTest(n: nat, p: nat, labels: Labels, lower: string -> string)
    requires lower("dev") == "dev" && lower("test") == "test"
    ensures 2 <= EnvScore(n, p, labels, lower, "dev") - EnvScore(n, p, labels, lower, "test") <= 3
  {
    assert EnvTenths("dev") == 3 && EnvTenths("test") == 2;
    hide EnvTenths, EnvScore;
    EnvGap(n, p, labels, lower, "dev", "test", 3, 2);
  }

  // ---- the exposure ----

  /** The score with this exposure and secret type, all else equal. */
  function ExposedScore(n: nat, p: nat, labels: Labels, lower: string -> string, x: string, t: string): nat {
    Score(n, p, labels.(exposure := x, secretType := t), lower).score
  }

  lemma InExposure(n: nat, p: nat, labels: Labels, lower: string -> string, x: string, t: string, twentieths: nat)
    requires ExposureTwentieths(lower(x), lower(t)) == twentieths
    ensures Rounds(ScopeBase(n, p), 10 * EnvTenths(lower(labels.environment)) + 7 * twentieths,
                   ExposedScore(n, p, labels, lower, x, t))
  {
    hide Rounds, ScopeBase, Score, EnvTenths, ExposureTwentieths;
  }

  /** Two exposures: 1.75 points for each twentieth of their difference, up to the rounding. */
  lemma ExposureGap(n: nat, p: nat, labels: Labels, lower: string -> string, x: string, t: string, y: string,
                    u: string, tx: nat, ty: nat)
    requires ExposureTwentieths(lower(x), lower(t)) == tx && ExposureTwentieths(lower(y), lower(u)) == ty && ty <= tx
    ensures var gap := ExposedScore(n, p, labels, lower, x, t) - ExposedScore(n, p, labels, lower, y, u);
            && 7 * (tx - ty) - 4 <= 4 * gap <= 7 * (tx - ty) + 4
            && (tx == ty ==> gap == 0) && (tx == ty + 8 ==> gap == 14)
  {
    hide EnvTenths, ScopeBase, ExposedScore, Rounds, ExposureTwentieths;
    var m, e := ScopeBase(n, p), 10 * EnvTenths(lower(labels.environment));
    InExposure(n, p, labels, lower, x, t, tx);
    InExposure(n, p, labels, lower, y, u, ty);
    var r, s := ExposedScore(n, p, labels, lower, y, u), ExposedScore(n, p, labels, lower, x, t);
    assert e + 7 * tx == e + 7 * ty + 7 * (tx - ty);
    Gap(m, e + 7 * ty, r, 7 * (tx - ty), s);
    if tx == ty {
      RoundsOnce(m, e + 7 * tx, r, s);
    }
    if tx == ty + 8 {
      EvenPoints(m, e + 7 * ty, r, 7, s);
    }
  }

  /** A public leak scores more than a confirmed exposure, that more than a live one, */
  lemma LeakOverConfirmedOverLive(n: nat, p: nat, labels: Labels, lower: string -> string, t: string)
    requires lower("public_leak") == "public_leak" && lower("confirmed") == "confirmed"
    requires lower("live_inferred") == "live_inferred"
    ensures ExposedScore(n, p, labels, lower, "public_leak", t) > ExposedScore(n, p, labels, lower, "confirmed", t)
    ensures 3 <= ExposedScore(n, p, labels, lower, "confirmed", t)
                 - ExposedScore(n, p, labels, lower, "live_inferred", t) <= 4
  {
    var bump := TypeBump(lower(t));
    assert ExposureTwentieths("public_leak", lower(t)) == 20;
    assert ExposureTwentieths("confirmed", lower(t)) == 16 + bump;
    assert ExposureTwentieths("live_inferred", lower(t)) == 14 + bump;
    hide ExposureTwentieths, TypeBump, ExposedScore;
    ExposureGap(n, p, labels, lower, "public_leak", t, "confirmed", t, 20, 16 + bump);
    ExposureGap(n, p, labels, lower, "confirmed", t, "live_inferred", t, 16 + bump, 14 + bump);
  }

  /** that 7 points more than an unknown, suspected or unlisted one, and that 14 more than an
      inactive one. */
  lemma LiveOverUnknownOverInactive(n: nat, p: nat, labels: Labels, lower: string -> string, t: string, other: string)
    requires lower("live_inferred") == "live_inferred" && lower("unknown") == "unknown"
    requires lower("suspected") == "suspected" && lower("inactive") == "inactive"
    requires lower(other) !in {"public_leak", "live_inferred", "inactive", "confirmed"}
    ensures 6 <= ExposedScore(n, p, labels, lower, "live_inferred", t)
                 - ExposedScore(n, p, labels, lower, "unknown", t) <= 8
    ensures ExposedScore(n, p, labels, lower, "unknown", t) == ExposedScore(n, p, labels, lower, other, t)
    ensures ExposedScore(n, p, labels, lower, "suspected", t) == ExposedScore(n, p, labels, lower, other, t)
    ensures ExposedScore(n, p, labels, lower, "unknown", t) ==
            ExposedScore(n, p, labels, lower, "inactive", t) + 14
  {
    var bump := TypeBump(lower(t));
    assert ExposureTwentieths("live_inferred", lower(t)) == 14 + bump;
    assert ExposureTwentieths("unknown", lower(t)) == ExposureTwentieths("suspected", lower(t)) == 10 + bump;
    assert ExposureTwentieths(lower(other), lower(t)) == 10 + bump;
    assert ExposureTwentieths("inactive", lower(t)) == 2 + bump;
    hide ExposureTwentieths, TypeBump, ExposedScore;
    ExposureGap(n, p, labels, lower, "live_inferred", t, "unknown", t, 14 + bump, 10 + bump);
    ExposureGap(n, p, labels, lower, "unknown", t, other, t, 10 + bump, 10 + bump);
    ExposureGap(n, p, labels, lower, "suspected", t, other, t, 10 + bump, 10 + bump);
    ExposureGap(n, p, labels, lower, "unknown", t, "inactive", t, 10 + bump, 2 + bump);
  }

  // ---- the secret type ----

  predicate Strong(t: string) {
    t == "aws_access_key" || t == "iam_access_key" || t == "private_key"
  }

  predicate Middle(t: string) {
    t == "database_url" || t == "database" || t == "github_token"
  }

  predicate Weak(t: string) {
    t == "api_key" || t == "oauth_token"
  }

  /** The three classes of secret types, and the rest. */
  predicate Class(t: string, c: nat) {
    (c == 3 <==> Strong(t)) && (c == 2 <==> Middle(t)) && (c == 1 <==> Weak(t)) && c <= 3
  }

  lemma ClassBump(t: string, c: nat)
    requires Class(t, c)
    ensures TypeBump(t) == c
  {
  }

  lemma NotLeaked(exposure: string, t: string)
    requires exposure != "public_leak"
    ensures ExposureTwentieths(exposure, t) == ExposureBase(exposure) + TypeBump(t) && ExposureBase(exposure) <= 16
  {
  }

  /** A higher class of secret type scores strictly more and types of one class score alike,
      unless the secret is publicly leaked, where the type makes no difference. */
  lemma TypeOrder(n: nat, p: nat, labels: Labels, lower: string -> string, x: string, t: string, u: string,
                  c: nat, d: nat)
    requires Class(lower(t), c) && Class(lower(u), d) && d <= c
    ensures var gap := ExposedScore(n, p, labels, lower, x, t) - ExposedScore(n, p, labels, lower, x, u);
            if lower(x) == "public_leak" || c == d then gap == 0
            else if c == d + 1 then 1 <= gap <= 2
            else if c == d + 2 then 3 <= gap <= 4
            else 5 <= gap <= 6
  {
    ClassBump(lower(t), c);
    ClassBump(lower(u), d);
    if lower(x) == "public_leak" {
      assert ExposureTwentieths(lower(x), lower(t)) == ExposureTwentieths(lower(x), lower(u)) == 20;
      hide ExposureTwentieths, ExposedScore;
      ExposureGap(n, p, labels, lower, x, t, x, u, 20, 20);
    } else {
      NotLeaked(lower(x), lower(t));
      NotLeaked(lower(x), lower(u));
      hide ExposureTwentieths, ExposedScore, TypeBump, ExposureBase, Class;
      ExposureGap(n, p, labels, lower, x, t, x, u, ExposureBase(lower(x)) + c, ExposureBase(lower(x)) + d);
    }
  }

  // ---- absolute points ----

  /** Without any reach: a leaked production secret scores 60 and is high, an unknown one with
      unknown exposure 30, an inactive test secret 8. */
  lemma AbsolutePoints(labels: Labels, lower: string -> string)
    requires Class(lower(labels.secretType), 0)
    ensures lower(labels.environment) == "prod" && lower(labels.exposure) == "public_leak" ==>
              Score(0, 0, labels, lower) == Assessment(60, High)
    ensures lower(labels.environment) == "unknown" && lower(labels.exposure) == "unknown" ==>
              Score(0, 0, labels, lower) == Assessment(30, Low)
    ensures lower(labels.environment) == "test" && lower(labels.exposure) == "inactive" ==>
              Score(0, 0, labels, lower) == Assessment(8, Low)
  {
    hide Class, TypeBump, QuartersOf, Score, Strong, Middle, Weak;
    ClassBump(lower(labels.secretType), 0);
    NoReach(labels, lower);
    AbsoluteQuarters(labels, lower);
    BucketIs(labels, lower);
  }

  lemma AbsoluteQuarters(labels: Labels, lower: string -> string)
    requires TypeBump(lower(labels.secretType)) == 0
    ensures lower(labels.environment) == "prod" && lower(labels.exposure) == "public_leak" ==>
              QuartersOf(labels, lower) == 240
    ensures lower(labels.environment) == "unknown" && lower(labels.exposure) == "unknown" ==>
              QuartersOf(labels, lower) == 120
    ensures lower(labels.environment) == "test" && lower(labels.exposure) == "inactive" ==>
              QuartersOf(labels, lower) == 34
  {
    hide TypeBump;
  }

  lemma BucketIs(labels: Labels, lower: string -> string)
    ensures var a := Score(0, 0, labels, lower); a.bucket == ToBucket(a.score)
  {
    hide Rounds, RoundFrom, QuartersOf;
  }
}
