/** The singleton's dragon-ball counter: balls are collected up to seven,
    and summoning Shenlong needs all seven and resets the count. The single
    shared instance is one counter value threaded through every call. */
module DragonBalls {

  const MaxBalls: int := 7

  /** A fresh instance has collected nothing. */
  const Initial: int := 0

  predicate Valid(balls: int) {
    0 <= balls <= MaxBalls
  }

  datatype CollectOutcome = Collected(total: int) | AlreadyComplete

  /** `collectBall`: counts one more ball unless seven are already held. */
  function CollectBall(balls: int): (r: (int, CollectOutcome))
    ensures balls < MaxBalls ==> r == (balls + 1, Collected(balls + 1))
    ensures balls >= MaxBalls ==> r == (balls, AlreadyComplete)
    ensures Valid(balls) ==> Valid(r.0)
  {
    if balls < MaxBalls then (balls + 1, Collected(balls + 1)) else (balls, AlreadyComplete)
  }

  datatype SummonOutcome = Summoned | Missing(count: int)

  /** `summonShenlong`: with exactly seven balls the wish is granted and the
      count resets; otherwise nothing changes and the shortfall is reported. */
  function SummonShenlong(balls: int): (r: (int, SummonOutcome))
    ensures r.1.Summoned? <==> balls == MaxBalls
    ensures r.1.Summoned? ==> r.0 == 0
    ensures r.1.Missing? ==> r.0 == balls && r.1.count == MaxBalls - balls
    ensures Valid(balls) ==> Valid(r.0)
    ensures Valid(balls) && r.1.Missing? ==> 0 < r.1.count <= MaxBalls
  {
    if balls == MaxBalls then (0, Summoned) else (balls, Missing(MaxBalls - balls))
  }

  /** The count after n collect calls. */
  function CollectTimes(balls: int, n: nat): int
    decreases n
  {
    if n == 0 then balls else CollectTimes(CollectBall(balls).0, n - 1)
  }

  /** Collecting n times saturates at seven. */
  lemma {:induction false} CollectTimesSaturates(balls: int, n: nat)
    requires Valid(balls)
    ensures CollectTimes(balls, n) == if balls + n <= MaxBalls then balls + n else MaxBalls
    decreases n
  {
    if n > 0 {
      CollectTimesSaturates(CollectBall(balls).0, n - 1);
    }
  }

  /** Summoning succeeds exactly when enough balls were collected since the
      last reset. */
  lemma SummonAfterCollecting(n: nat)
    ensures SummonShenlong(CollectTimes(Initial, n)).1.Summoned? <==> n >= MaxBalls
  {
    CollectTimesSaturates(Initial, n);
  }

  /** The demo with two references to the one instance: three collects, a
      failed summon reporting four missing, four more collects, and a
      successful summon leaving zero. */
  lemma {:induction false} SharedInstanceScenario()
    ensures
      var goku := CollectTimes(Initial, 3);
      var failed := SummonShenlong(goku);
      var vegeta := CollectTimes(failed.0, 4);
      var granted := SummonShenlong(vegeta);
      && failed.1 == Missing(4)
      && vegeta == 7
      && granted == (0, Summoned)
  {
    CollectTimesSaturates(Initial, 3);
    CollectTimesSaturates(3, 4);
  }
}
