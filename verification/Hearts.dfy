/**
 Hearts that grow back one per half hour, up to five, computed only when they are read or changed.
 Instants are in microseconds, the precision at which the row stores them.
 */
module Hearts {
  const MAX := 5
  const SECOND := 1_000_000
  const REGEN := 1800 * SECOND

  /** What is stored: the hearts at the last write and the instant they count from. */
  datatype Bucket = Bucket(hearts: int, at: int)

  datatype Regenerated = Regenerated(bucket: Bucket, nextInSec: int)

  /** Integer division that truncates toward zero. */
  function Quotient(a: int, b: int): int
    requires b > 0
  {
    if a >= 0 then a / b else -((-a) / b)
  }

  function Regen(b: Bucket, now: int): Regenerated {
    if b.hearts >= MAX then Regenerated(Bucket(MAX, now), 0)
    else
      var regen := Quotient(now - b.at, REGEN);
      var cur := b.hearts + regen;
      var at := b.at + regen * REGEN;
      if cur >= MAX then Regenerated(Bucket(MAX, now), 0)
      else
        var remain := REGEN - (now - at);
        Regenerated(Bucket(cur, at), (if remain < 0 then 0 else remain) / SECOND)
  }

  /** Whole periods since `at`: no clock has gone back. */
  lemma Periods(at: int, now: int)
    requires at <= now
    ensures var k := Quotient(now - at, REGEN); k >= 0 && at + k * REGEN <= now < at + (k + 1) * REGEN
  {
  }

  lemma PeriodsUnique(at: int, now: int, k: int)
    requires at <= now && k >= 0 && at + k * REGEN <= now < at + (k + 1) * REGEN
    ensures Quotient(now - at, REGEN) == k
  {
    Periods(at, now);
  }

  /** Reading or writing in between is invisible: regenerating at t1 and then at t2 is regenerating once at t2. */
  lemma RegenTwiceIsOnce(b: Bucket, t1: int, t2: int)
    requires b.hearts < MAX ==> b.at <= t1
    requires t1 <= t2
    ensures Regen(Regen(b, t1).bucket, t2) == Regen(b, t2)
  {
    if b.hearts < MAX {
      Periods(b.at, t1);
      Periods(b.at, t2);
      var k1, k2 := Quotient(t1 - b.at, REGEN), Quotient(t2 - b.at, REGEN);
      var at1 := b.at + k1 * REGEN;
      assert k1 <= k2;
      assert at1 + (k2 - k1) * REGEN == b.at + k2 * REGEN;
      assert at1 + (k2 - k1 + 1) * REGEN == b.at + (k2 + 1) * REGEN;
      PeriodsUnique(at1, t2, k2 - k1);
    }
  }

  /** One heart per whole period and no fraction of a period lost; the countdown says when the next one is there. */
  lemma RegenCountsPeriods(b: Bucket, now: int)
    requires 0 <= b.hearts < MAX && b.at <= now
    ensures var r := Regen(b, now);
            var periods := (now - b.at) / REGEN;
            && r.bucket.hearts == (if b.hearts + periods < MAX then b.hearts + periods else MAX)
            && (r.bucket.hearts < MAX ==>
                  && r.bucket.at == b.at + periods * REGEN && r.bucket.at <= now < r.bucket.at + REGEN
                  && Regen(b, r.bucket.at + REGEN).bucket.hearts == r.bucket.hearts + 1
                  && (forall t :: now <= t < r.bucket.at + REGEN ==> Regen(b, t).bucket.hearts == r.bucket.hearts)
                  && now + r.nextInSec * SECOND <= r.bucket.at + REGEN < now + (r.nextInSec + 1) * SECOND)
  {
    Periods(b.at, now);
    var r, k := Regen(b, now), Quotient(now - b.at, REGEN);
    if r.bucket.hearts < MAX {
      PeriodsUnique(b.at, r.bucket.at + REGEN, k + 1);
      forall t | now <= t < r.bucket.at + REGEN
        ensures Regen(b, t).bucket.hearts == r.bucket.hearts
      {
        PeriodsUnique(b.at, t, k);
      }
    }
  }
}
