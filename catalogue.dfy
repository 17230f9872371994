/** The static assessment catalogue of the fitness application: the fitness
    tests, their benchmark thresholds, the badge catalogue and the three
    leaderboard tables, together with the lookup of a test by its id. */
module Catalogue {
  import opened Options

  /** One fitness test. The icon is a component of an icon library; it is
      modelled by the component's name. */
  datatype Test = Test(id: string, name: string, description: string, icon: string)

  /** The four thresholds of one test, one per skill level. */
  datatype Levels = Levels(beginner: int, intermediate: int, advanced: int, elite: int)

  /** The benchmark of one test: its unit of measurement and its thresholds. */
  datatype Benchmark = Benchmark(unit: string, levels: Levels)

  /** One badge. `imageKey` is the id of the placeholder image the badge's
      picture is looked up by; the resolved URL is not part of this model. */
  datatype Badge = Badge(id: string, name: string, description: string, icon: string, imageKey: string)

  /** The five titles a leaderboard row may carry. */
  datatype Title = Rookie | Intermediate | Pro | Master | Grandmaster

  datatype LeaderboardEntry = LeaderboardEntry(rank: int, name: string, score: int, avatar: string, level: Title)

  const tests: seq<Test> := [
    Test("push-ups", "Push-ups", "Test your upper body strength.", "Flame"),
    Test("pull-ups", "Pull-ups", "Assess your back and bicep strength.", "ArrowUpFromDot"),
    Test("squats", "Squats", "Measure your lower body strength.", "Dumbbell"),
    Test("skipping", "Skipping", "Evaluate your coordination and stamina.", "HeartPulse"),
    Test("vertical-jump", "Vertical Jump", "Measure your explosive leg power.", "PersonStanding"),
    Test("shuttle-run", "Shuttle Run", "Test your agility and speed.", "Footprints"),
    Test("sit-ups", "Sit-ups", "Assess your abdominal strength.", "Repeat"),
    Test("endurance-run", "Endurance Run", "Evaluate your cardiovascular fitness.", "Wind")
  ]

  const benchmarks: map<string, Benchmark> := map[
    "push-ups" := Benchmark("reps", Levels(10, 25, 40, 50)),
    "pull-ups" := Benchmark("reps", Levels(1, 5, 10, 20)),
    "squats" := Benchmark("reps", Levels(20, 40, 60, 100)),
    "skipping" := Benchmark("reps", Levels(50, 100, 200, 300)),
    "sit-ups" := Benchmark("reps", Levels(15, 30, 45, 60)),
    "vertical-jump" := Benchmark("cm", Levels(20, 40, 60, 80)),
    "shuttle-run" := Benchmark("s", Levels(12, 11, 10, 9)),
    "endurance-run" := Benchmark("m", Levels(1600, 2400, 3200, 5000))
  ]

  const badges: seq<Badge> := [
    Badge("jump-starter", "Jump Starter", "Completed your first vertical jump test.", "Star", "badge-jump-1"),
    Badge("endurance-rookie", "Endurance Rookie", "Completed your first endurance run.", "Star", "badge-endurance-1"),
    Badge("sit-up-pro", "Sit-up Pro", "Achieved 50 sit-ups in a single test.", "Medal", "badge-situp-1"),
    Badge("agility-master", "Agility Master", "Top score in the shuttle run.", "Trophy", "badge-run-2"),
    Badge("power-jumper", "Power Jumper", "Reached elite level in vertical jump.", "Zap", "badge-jump-2"),
    Badge("core-champion", "Core Champion", "Mastered the sit-up challenge.", "Dumbbell", "badge-run-1")
  ]

  const cityLeaderboard: seq<LeaderboardEntry> := [
    LeaderboardEntry(1, "Ravi Kumar", 4850, "https://picsum.photos/seed/L1/40/40", Pro),
    LeaderboardEntry(2, "Priya Sharma", 4720, "https://picsum.photos/seed/L2/40/40", Pro),
    LeaderboardEntry(3, "Amit Singh", 4680, "https://picsum.photos/seed/L3/40/40", Pro),
    LeaderboardEntry(4, "Anjali Das", 4510, "https://picsum.photos/seed/L4/40/40", Intermediate),
    LeaderboardEntry(5, "You", 4490, "https://picsum.photos/seed/You/40/40", Intermediate),
    LeaderboardEntry(6, "Sanjay Verma", 4300, "https://picsum.photos/seed/L5/40/40", Rookie)
  ]

  const stateLeaderboard: seq<LeaderboardEntry> := [
    LeaderboardEntry(1, "Vikram Rathore", 9800, "https://picsum.photos/seed/S1/40/40", Master),
    LeaderboardEntry(2, "Ravi Kumar", 9650, "https://picsum.photos/seed/L1/40/40", Master),
    LeaderboardEntry(3, "Priya Sharma", 9500, "https://picsum.photos/seed/L2/40/40", Pro),
    LeaderboardEntry(4, "Amit Singh", 9210, "https://picsum.photos/seed/L3/40/40", Pro),
    LeaderboardEntry(5, "Neha Reddy", 9150, "https://picsum.photos/seed/S2/40/40", Pro)
  ]

  const nationalLeaderboard: seq<LeaderboardEntry> := [
    LeaderboardEntry(1, "Arjun Desai", 15500, "https://picsum.photos/seed/N1/40/40", Grandmaster),
    LeaderboardEntry(2, "Vikram Rathore", 15200, "https://picsum.photos/seed/S1/40/40", Grandmaster),
    LeaderboardEntry(3, "Ravi Kumar", 14900, "https://picsum.photos/seed/L1/40/40", Master),
    LeaderboardEntry(4, "Meera Nair", 14750, "https://picsum.photos/seed/N2/40/40", Master),
    LeaderboardEntry(5, "Aditya Rao", 14600, "https://picsum.photos/seed/N3/40/40", Master)
  ]

  /** The first test of `ts` whose id is `id`, as an array `find` returns it. */
  function FindTest(ts: seq<Test>, id: string): (r: Option<Test>)
    ensures r.Some? ==> exists i :: 0 <= i < |ts| && ts[i] == r.value && ts[i].id == id &&
                                    forall j :: 0 <= j < i ==> ts[j].id != id
    ensures r.None? <==> forall i :: 0 <= i < |ts| ==> ts[i].id != id
  {
    if ts == [] then None
    else if ts[0].id == id then Some(ts[0])
    else
      var r := FindTest(ts[1..], id);
      assert forall i :: 1 <= i < |ts| ==> ts[i] == ts[1..][i - 1];
      r
  }

  /** The test with the given id; an absent or empty id finds nothing. */
  function GetTestById(id: Option<string>): (r: Option<Test>)
    ensures (id == None || id == Some("")) ==> r == None
    ensures r.Some? ==> r.value in tests && id == Some(r.value.id)
    ensures r.None? <==> (id.None? || id.value == "" || forall t :: t in tests ==> t.id != id.value)
  {
    if id == None || id == Some("") then None
    else FindTest(tests, id.value)
  }

  /** Ids of a test list are pairwise distinct. */
  predicate DistinctTestIds(ts: seq<Test>) {
    forall i, j :: 0 <= i < j < |ts| ==> ts[i].id != ts[j].id
  }

  predicate DistinctBadgeIds(bs: seq<Badge>) {
    forall i, j :: 0 <= i < j < |bs| ==> bs[i].id != bs[j].id
  }

  /** Thresholds of a test where a larger measurement is better. */
  predicate Ascending(l: Levels) {
    l.beginner < l.intermediate < l.advanced < l.elite
  }

  /** Thresholds of a test where a smaller measurement is better. */
  predicate Descending(l: Levels) {
    l.elite < l.advanced < l.intermediate < l.beginner
  }

  /** Ranks 1..N in list order, scores strictly decreasing from one row to the next. */
  predicate WellRanked(board: seq<LeaderboardEntry>) {
    && (forall i :: 0 <= i < |board| ==> board[i].rank == i + 1)
    && (forall i :: 0 <= i < |board| - 1 ==> board[i].score > board[i + 1].score)
  }

  lemma TestIdsDistinct()
    ensures DistinctTestIds(tests)
  {
  }

  lemma BadgeIdsDistinct()
    ensures DistinctBadgeIds(badges)
  {
  }

  /** Every test has a benchmark, and every benchmark belongs to a test. */
  lemma EveryTestHasBenchmark()
    ensures forall i :: 0 <= i < |tests| ==> tests[i].id in benchmarks
    ensures forall k :: k in benchmarks ==> exists i :: 0 <= i < |tests| && tests[i].id == k
  {
    assert benchmarks.Keys == {"push-ups", "pull-ups", "squats", "skipping", "sit-ups",
                               "vertical-jump", "shuttle-run", "endurance-run"};
    assert tests[0].id == "push-ups" && tests[1].id == "pull-ups" && tests[2].id == "squats";
    assert tests[3].id == "skipping" && tests[4].id == "vertical-jump" && tests[5].id == "shuttle-run";
    assert tests[6].id == "sit-ups" && tests[7].id == "endurance-run";
  }

  /** Shuttle-run is the one test with reversed thresholds, and the one timed in seconds. */
  lemma BenchmarksOrdered()
    ensures forall k :: k in benchmarks && k != "shuttle-run" ==> Ascending(benchmarks[k].levels)
    ensures Descending(benchmarks["shuttle-run"].levels)
    ensures forall k :: k in benchmarks ==> (benchmarks[k].unit == "s" <==> k == "shuttle-run")
  {
  }

  lemma LeaderboardsWellRanked()
    ensures WellRanked(cityLeaderboard)
    ensures WellRanked(stateLeaderboard)
    ensures WellRanked(nationalLeaderboard)
  {
  }

  /** In a well-ranked table a better rank always carries a strictly higher score. */
  lemma {:induction false} WellRankedScoresDecrease(board: seq<LeaderboardEntry>, i: int, j: int)
    requires WellRanked(board)
    requires 0 <= i < j < |board|
    ensures board[i].score > board[j].score
  {
    if j > i + 1 {
      WellRankedScoresDecrease(board, i, j - 1);
    }
  }

  /** With distinct ids, looking up the id of any test finds that very test. */
  lemma {:induction false} FindTestFindsEach(ts: seq<Test>, k: int)
    requires DistinctTestIds(ts)
    requires 0 <= k < |ts|
    ensures FindTest(ts, ts[k].id) == Some(ts[k])
  {
    if k > 0 {
      assert ts[0].id != ts[k].id;
      assert DistinctTestIds(ts[1..]) by {
        forall i, j | 0 <= i < j < |ts[1..]| ensures ts[1..][i].id != ts[1..][j].id {
          assert ts[1..][i] == ts[i + 1] && ts[1..][j] == ts[j + 1];
        }
      }
      FindTestFindsEach(ts[1..], k - 1);
    }
  }

  lemma GetTestByIdFindsEachTest(k: int)
    requires 0 <= k < |tests|
    ensures GetTestById(Some(tests[k].id)) == Some(tests[k])
  {
    TestIdsDistinct();
    assert tests[k].id != "";
    FindTestFindsEach(tests, k);
  }
}
