/** The application shell: the player's profile (`AppState.user` with its
    subject performance) and the activity history, the bookkeeping `endGame`
    performs after every game, and the profile helpers around it (level,
    badges, rank title, avatar, name, advanced metrics). */
module App {
  import opened JsMath
  import opened Records
  import Analytics

  // ---------------------------------------------------------------------
  // Constants
  // ---------------------------------------------------------------------

  /** Net worth earned per point. */
  const NetWorthPerPoint := 500
  const ActivityCap := 20
  /** The most recent mistakes kept for review. */
  const RecentMistakeCap := 10
  const MaxNameLength := 20
  /** The avatar the profile starts with, followed by the other twelve, in cycling order. */
  const Avatars: seq<string> := [
    "\U{1F464}", "\U{1F600}", "\U{1F60E}", "\U{1F913}",
    "\U{1F9D1}\U{200D}\U{1F393}", "\U{1F468}\U{200D}\U{1F4BB}", "\U{1F469}\U{200D}\U{1F4BB}",
    "\U{1F9B8}", "\U{1F9D9}", "\U{1F431}", "\U{1F436}", "\U{1F98A}", "\U{1F43C}"
  ]
  const RankTitles: seq<string> := [
    "Rookie", "Novice", "Apprentice", "Practitioner", "Pro",
    "Expert", "Master", "Grandmaster", "Legend", "Financial Deity"
  ]

  // ---------------------------------------------------------------------
  // The profile
  // ---------------------------------------------------------------------

  /** A dated value of a history used for charting. */
  datatype HistoryPoint = HistoryPoint(date: int, value: int)

  /** Questions seen and answered correctly in one subject. */
  datatype Performance = Performance(total: int, correct: int)

  /** One line of the activity history (the game is named by its id). */
  datatype Activity = Activity(gameId: string, points: int, score: int, total: int, date: int)

  datatype Profile = Profile(
    name: string,
    avatar: string,
    level: int,
    netWorth: int,
    creditHealth: int,
    emergencyReadiness: int,
    riskExposure: int,
    badges: seq<string>,
    gamesPlayed: int,
    accuracy: int,
    streak: int,
    recentMistakes: seq<Mistake>,
    netWorthHistory: seq<HistoryPoint>,
    scoreHistory: seq<HistoryPoint>,
    subjectPerformance: map<Category, Performance>,
    activityHistory: seq<Activity>)

  predicate Distinct(s: seq<string>)
  {
    forall i, j :: 0 <= i < j < |s| ==> s[i] != s[j]
  }

  /** What `endGame` and the profile helpers keep true of the profile. */
  predicate Valid(p: Profile)
  {
    && 1 <= p.level <= 10
    && p.netWorth >= 0
    && p.creditHealth <= 900
    && 0 <= p.emergencyReadiness <= 100
    && 0 <= p.riskExposure <= 100
    && 0 <= p.accuracy <= 100
    && p.gamesPlayed >= 0
    && Distinct(p.badges)
    && |p.activityHistory| <= ActivityCap
    && |p.recentMistakes| <= RecentMistakeCap
  }

  /** The profile of a new player. */
  function Initial(): (p: Profile)
    ensures Valid(p) && p.avatar == Avatars[0] && p.level == 1 && p.creditHealth == 700
  {
    Profile("Player", Avatars[0], 1, 0, 700, 0, 0, [], 0, 0, 0, [], [], [], map[], [])
  }

  // ---------------------------------------------------------------------
  // Financial health and level
  // ---------------------------------------------------------------------

  /** `calculateFinancialHealth`: the rounded mean of the net-worth score
      (capped at 100 for 50,000), the credit health out of 900 in percent,
      the emergency readiness and the risk exposure. */
  function FinancialHealth(p: Profile): (h: int)
    ensures (0 <= p.netWorth && 0 <= p.creditHealth <= 900 && 0 <= p.emergencyReadiness <= 100
             && 0 <= p.riskExposure <= 100) ==> 0 <= h <= 100
  {
    var netWorthScore := MinReal(100.0, p.netWorth as real / 50000.0 * 100.0);
    var creditScore := p.creditHealth as real / 900.0 * 100.0;
    var sum := netWorthScore + creditScore + p.emergencyReadiness as real + p.riskExposure as real;
    HealthBounds(p, netWorthScore, creditScore, sum);
    Round(sum / 4.0)
  }

  lemma HealthBounds(p: Profile, netWorthScore: real, creditScore: real, sum: real)
    requires netWorthScore == MinReal(100.0, p.netWorth as real / 50000.0 * 100.0)
    requires creditScore == p.creditHealth as real / 900.0 * 100.0
    requires sum == netWorthScore + creditScore + p.emergencyReadiness as real + p.riskExposure as real
    ensures (0 <= p.netWorth && 0 <= p.creditHealth <= 900 && 0 <= p.emergencyReadiness <= 100
             && 0 <= p.riskExposure <= 100) ==> 0 <= Round(sum / 4.0) <= 100
  {
    if 0 <= p.netWorth && 0 <= p.creditHealth <= 900 && 0 <= p.emergencyReadiness <= 100 && 0 <= p.riskExposure <= 100 {
      PercentBounds(p.creditHealth as real, 900.0);
      assert 0.0 <= netWorthScore;
      RoundBetween(sum / 4.0, 0, 100);
    }
  }

  /** The level `updateLevel` assigns for a health score: one level per ten
      points, from 1 up to 10. */
  function LevelFor(health: int): (level: int)
    ensures 1 <= level <= 10
    ensures 0 <= health < 100 ==> (level - 1) * 10 <= health < level * 10
    ensures health < 0 ==> level == 1
    ensures health >= 90 ==> level == 10
  {
    Clamp(1, 10, health / 10 + 1)
  }

  /** A healthier profile never has a lower level. */
  lemma LevelMonotone(h1: int, h2: int)
    requires h1 <= h2
    ensures LevelFor(h1) <= LevelFor(h2)
  {
    assert h1 / 10 <= h2 / 10;
  }

  /** `getRankTitle`: the title of a level, the last one from level 10 on;
      undefined below level 1. */
  function RankTitle(level: int): (t: Option<string>)
    ensures t.Some? <==> level >= 1
    ensures level >= 10 ==> t == Some("Financial Deity")
    ensures 1 <= level <= 10 ==> t == Some(RankTitles[level - 1])
  {
    if level < 1 then None else Some(RankTitles[Min(level - 1, |RankTitles| - 1)])
  }

  // ---------------------------------------------------------------------
  // Badges
  // ---------------------------------------------------------------------

  datatype Badge = WealthBuilder | ShieldBearer | GoldScore | RiskMaster | StreakMaster

  /** The badges in the order `checkNewBadges` examines them. */
  const AllBadges: seq<Badge> := [WealthBuilder, ShieldBearer, GoldScore, RiskMaster, StreakMaster]

  function BadgeId(b: Badge): string
  {
    match b
    case WealthBuilder => "wealth-builder"
    case ShieldBearer => "shield-bearer"
    case GoldScore => "gold-score"
    case RiskMaster => "risk-master"
    case StreakMaster => "streak-master"
  }

  /** `getBadgeDetails`: the badge with that id; None stands for the
      generic "Expert Learner" entry shown for any other id. */
  function BadgeOf(id: string): (b: Option<Badge>)
    ensures b.Some? ==> BadgeId(b.value) == id
  {
    if id == "wealth-builder" then Some(WealthBuilder)
    else if id == "shield-bearer" then Some(ShieldBearer)
    else if id == "gold-score" then Some(GoldScore)
    else if id == "risk-master" then Some(RiskMaster)
    else if id == "streak-master" then Some(StreakMaster)
    else None
  }

  /** Every badge is found again from its id, so distinct badges have distinct ids. */
  lemma BadgeIdRoundTrip(b: Badge)
    ensures BadgeOf(BadgeId(b)) == Some(b)
  {
    match b
    case WealthBuilder =>
    case ShieldBearer => assert BadgeId(b)[0] != "wealth-builder"[0];
    case GoldScore => assert BadgeId(b)[0] != "wealth-builder"[0] && BadgeId(b)[0] != "shield-bearer"[0];
    case RiskMaster => assert BadgeId(b)[0] != "wealth-builder"[0] && BadgeId(b)[0] != "shield-bearer"[0] && BadgeId(b)[0] != "gold-score"[0];
    case StreakMaster =>
      assert BadgeId(b)[0] != "wealth-builder"[0] && BadgeId(b)[0] != "gold-score"[0] && BadgeId(b)[0] != "risk-master"[0];
      assert BadgeId(b)[1] != "shield-bearer"[1];
  }

  /** The target of each badge: net worth 50,000, readiness 100, credit
      health 850, risk exposure 50, a 5-day streak. */
  predicate Earned(b: Badge, p: Profile)
  {
    match b
    case WealthBuilder => p.netWorth >= 50000
    case ShieldBearer => p.emergencyReadiness >= 100
    case GoldScore => p.creditHealth >= 850
    case RiskMaster => p.riskExposure >= 50
    case StreakMaster => p.streak >= 5
  }

  /** The badge list after examining `bs` in order: an earned badge whose id
      is not yet listed is appended. */
  function Unlocked(p: Profile, bs: seq<Badge>): (r: seq<string>)
    decreases |bs|
  {
    if bs == [] then p.badges
    else
      var prev := Unlocked(p, bs[..|bs| - 1]);
      var b := bs[|bs| - 1];
      if Earned(b, p) && BadgeId(b) !in prev then prev + [BadgeId(b)] else prev
  }

  /** `checkNewBadges` keeps the badges already held, in order, adds only
      ids of earned badges, adds every earned badge, and never lists an id twice. */
  lemma {:induction false} UnlockedFacts(p: Profile, bs: seq<Badge>)
    requires Distinct(p.badges)
    ensures var r := Unlocked(p, bs);
      && Distinct(r)
      && |r| >= |p.badges| && r[..|p.badges|] == p.badges
      && (forall i :: |p.badges| <= i < |r| ==> exists b :: b in bs && Earned(b, p) && r[i] == BadgeId(b))
      && (forall b :: b in bs && Earned(b, p) ==> BadgeId(b) in r)
    decreases |bs|
  {
    if bs != [] {
      var init := bs[..|bs| - 1];
      UnlockedFacts(p, init);
      var prev := Unlocked(p, init);
      var b := bs[|bs| - 1];
      var r := Unlocked(p, bs);
      assert r == prev || r == prev + [BadgeId(b)];
      forall i | |p.badges| <= i < |r| ensures exists c :: c in bs && Earned(c, p) && r[i] == BadgeId(c) {
        if i < |prev| {
          var c :| c in init && Earned(c, p) && prev[i] == BadgeId(c);
          assert c in bs;
        } else {
          assert r[i] == BadgeId(b) && b in bs && Earned(b, p);
        }
      }
      forall c | c in bs && Earned(c, p) ensures BadgeId(c) in r {
        if c != b {
          assert c in init;
        }
      }
    }
  }

  /** `checkNewBadges` is idempotent: a second check right after the first unlocks nothing. */
  lemma UnlockIdempotent(p: Profile)
    requires Distinct(p.badges)
    ensures Unlocked(p.(badges := Unlocked(p, AllBadges)), AllBadges) == Unlocked(p, AllBadges)
  {
    UnlockedFacts(p, AllBadges);
    var q := p.(badges := Unlocked(p, AllBadges));
    NothingToUnlock(q, AllBadges);
  }

  lemma {:induction false} NothingToUnlock(q: Profile, bs: seq<Badge>)
    requires forall b :: b in bs && Earned(b, q) ==> BadgeId(b) in q.badges
    ensures Unlocked(q, bs) == q.badges
    decreases |bs|
  {
    if bs != [] {
      NothingToUnlock(q, bs[..|bs| - 1]);
    }
  }

  // ---------------------------------------------------------------------
  // Avatar and name
  // ---------------------------------------------------------------------

  /** `indexOf`: the first position of `x` in `s`, or -1. */
  function IndexOf(s: seq<string>, x: string): int
  {
    if s == [] then -1
    else if s[0] == x then 0
    else
      var k := IndexOf(s[1..], x);
      if k == -1 then -1 else k + 1
  }

  /** The search returns -1 exactly when `x` is absent, and otherwise the
      first position holding `x`. */
  lemma {:induction false} IndexOfFacts(s: seq<string>, x: string)
    ensures -1 <= IndexOf(s, x) < |s|
    ensures IndexOf(s, x) == -1 <==> x !in s
    ensures IndexOf(s, x) >= 0 ==> s[IndexOf(s, x)] == x
    ensures forall j :: 0 <= j < IndexOf(s, x) ==> s[j] != x
  {
    if s != [] && s[0] != x {
      IndexOfFacts(s[1..], x);
      assert x in s <==> x in s[1..];
      forall j | 0 <= j < IndexOf(s, x) ensures s[j] != x {
        if j > 0 {
          assert s[j] == s[1..][j - 1];
        }
      }
    }
  }

  /** `changeAvatar`: the avatar after the current one in the cycle; an
      avatar that is not in the list is replaced by the first one. */
  function NextAvatar(avatar: string): (a: string)
    ensures a in Avatars
    ensures avatar !in Avatars ==> a == Avatars[0]
  {
    NextIn(Avatars, avatar)
  }

  /** The entry of a cyclic list after `x`; the first when `x` is not listed. */
  function NextIn(list: seq<string>, x: string): (a: string)
    requires list != []
    ensures a in list
    ensures x !in list ==> a == list[0]
  {
    IndexOfFacts(list, x);
    list[(IndexOf(list, x) + 1) % |list|]
  }

  /** Looks `x` up and steps to the following entry, wrapping around. */
  method CycleNext(list: seq<string>, x: string) returns (a: string)
    requires list != []
    ensures a == NextIn(list, x)
  {
    var currentIndex := IndexOf(list, x);
    IndexOfFacts(list, x);
    var nextIndex := (currentIndex + 1) % |list|;
    a := list[nextIndex];
  }

  /** The avatars differ pairwise: no two start with the same code point. */
  lemma AvatarsDistinct()
    ensures forall i, j :: 0 <= i < j < |Avatars| ==> Avatars[i] != Avatars[j]
  {
    forall i, j | 0 <= i < j < |Avatars| ensures Avatars[i] != Avatars[j] {
      assert Avatars[i][0] != Avatars[j][0];
    }
  }

  /** Each listed avatar is followed by the next one, the last by the first. */
  lemma NextOfListed(i: nat)
    requires i < |Avatars|
    ensures NextAvatar(Avatars[i]) == Avatars[(i + 1) % |Avatars|]
  {
    AvatarsDistinct();
    NextInDistinct(Avatars, i);
  }

  /** In a list without repeats, the entry at `i` is found at `i`. */
  lemma NextInDistinct(list: seq<string>, i: nat)
    requires i < |list|
    requires forall j, k :: 0 <= j < k < |list| ==> list[j] != list[k]
    ensures NextIn(list, list[i]) == list[(i + 1) % |list|]
  {
    IndexOfFacts(list, list[i]);
    assert IndexOf(list, list[i]) == i;
  }

  /** The characters `String.prototype.trim` removes: white space and line terminators. */
  predicate IsJsSpace(c: char)
  {
    || c == '\t' || c == '\n' || c == '\U{000B}' || c == '\U{000C}' || c == '\r' || c == ' '
    || c == '\U{00A0}' || c == '\U{1680}' || ('\U{2000}' <= c <= '\U{200A}')
    || c == '\U{2028}' || c == '\U{2029}' || c == '\U{202F}' || c == '\U{205F}'
    || c == '\U{3000}' || c == '\U{FEFF}'
  }

  function TrimStart(s: string): (r: string)
    ensures |r| <= |s| && r == s[|s| - |r|..]
    ensures r == [] || !IsJsSpace(r[0])
    ensures forall i :: 0 <= i < |s| - |r| ==> IsJsSpace(s[i])
  {
    if s != [] && IsJsSpace(s[0]) then TrimStart(s[1..]) else s
  }

  function TrimEnd(s: string): (r: string)
    ensures |r| <= |s| && r == s[..|r|]
    ensures r == [] || !IsJsSpace(r[|r| - 1])
    ensures forall i :: |r| <= i < |s| ==> IsJsSpace(s[i])
  {
    if s != [] && IsJsSpace(s[|s| - 1]) then TrimEnd(s[..|s| - 1]) else s
  }

  /** `trim()`: the string without its leading and trailing white space. */
  function Trim(s: string): (r: string)
    ensures r == [] || (!IsJsSpace(r[0]) && !IsJsSpace(r[|r| - 1]))
    ensures exists i :: OccursAt(s, r, i)
  {
    var t := TrimStart(s);
    var r := TrimEnd(t);
    assert OccursAt(s, r, |s| - |t|);
    r
  }

  /** Trimming a trimmed string changes nothing. */
  lemma TrimIdempotent(s: string)
    ensures Trim(Trim(s)) == Trim(s)
  {
    var r := Trim(s);
    assert TrimStart(r) == r;
    assert TrimEnd(r) == r;
  }

  /** `length`: the number of UTF-16 code units. */
  function Utf16Length(s: string): (n: nat)
    ensures n >= |s|
  {
    if s == [] then 0 else (if s[0] as int > 0xFFFF then 2 else 1) + Utf16Length(s[1..])
  }

  datatype NameChange = Cancelled | Renamed(name: string) | Rejected

  /** `changeName` given what the prompt returned (None when dismissed):
      an empty answer is ignored; otherwise the trimmed answer is taken when
      it is not blank and the raw answer has at most 20 UTF-16 code units. */
  function Rename(input: Option<string>): (c: NameChange)
    ensures c.Renamed? <==> input.Some? && Trim(input.value) != "" && Utf16Length(input.value) <= MaxNameLength
    ensures c.Renamed? ==> c.name == Trim(input.value) && |c.name| <= MaxNameLength
    ensures c.Renamed? ==> !IsJsSpace(c.name[0]) && !IsJsSpace(c.name[|c.name| - 1])
    ensures c.Cancelled? <==> input.None? || input.value == ""
  {
    if input.None? || input.value == "" then Cancelled
    else if Trim(input.value) != "" && Utf16Length(input.value) <= MaxNameLength then Renamed(Trim(input.value))
    else Rejected
  }

  // ---------------------------------------------------------------------
  // Advanced metrics
  // ---------------------------------------------------------------------

  function DiscretionaryCount(ms: seq<Mistake>): (n: nat)
    ensures n <= |ms|
  {
    if ms == [] then 0
    else (if ms[0].category == "social" || ms[0].category == "opportunity" then 1 else 0) + DiscretionaryCount(ms[1..])
  }

  /** The lifestyle share of spending shown by `updateAdvancedMetrics`: 20%
      with no social or opportunity mistakes, else 15% more per such mistake
      from 35%, capped at 60%. */
  function LifestylePercent(ms: seq<Mistake>): (r: int)
    ensures 20 <= r <= 60
    ensures r == 20 <==> DiscretionaryCount(ms) == 0
    ensures DiscretionaryCount(ms) == 1 ==> r == 35
    ensures DiscretionaryCount(ms) == 2 ==> r == 50
    ensures DiscretionaryCount(ms) >= 3 ==> r == 60
  {
    var k := DiscretionaryCount(ms);
    if k > 0 then Min(60, k * 15 + 20) else 20
  }

  /** A newly recorded social or opportunity mistake raises the lifestyle
      share by 15 points up to 60 (from 20 straight to 35); any other
      mistake leaves it as it was. */
  lemma LifestyleGrowsPerMistake(ms: seq<Mistake>, m: Mistake)
    ensures m.category == "social" || m.category == "opportunity" ==>
      LifestylePercent([m] + ms) == if DiscretionaryCount(ms) == 0 then 35 else Min(60, LifestylePercent(ms) + 15)
    ensures !(m.category == "social" || m.category == "opportunity") ==>
      LifestylePercent([m] + ms) == LifestylePercent(ms)
  {
    assert ([m] + ms)[1..] == ms;
  }

  /** The resilience score: the emergency readiness less 5 per recent mistake, never below 0. */
  function ResilienceScore(emergencyReadiness: int, ms: seq<Mistake>): (r: int)
    ensures r >= 0 && r <= Max(0, emergencyReadiness)
    ensures emergencyReadiness >= 5 * |ms| ==> r == emergencyReadiness - 5 * |ms|
  {
    Max(0, emergencyReadiness - 5 * |ms|)
  }

  /** One more recent mistake never raises the resilience score. */
  lemma ResilienceFallsWithMistakes(er: int, ms: seq<Mistake>, m: Mistake)
    ensures ResilienceScore(er, [m] + ms) <= ResilienceScore(er, ms)
  {
  }

  // ---------------------------------------------------------------------
  // endGame
  // ---------------------------------------------------------------------

  /** The arguments `endGame` accepts: three numbers, none NaN, a non-zero total. */
  predicate Accepted(score: Arg, total: Arg, points: Arg)
  {
    score.Num? && total.Num? && points.Num? && total.n != 0
  }

  /** The score clamped into [0, total]. */
  function ClampedScore(score: int, total: int): (s: int)
    ensures total >= 0 ==> 0 <= s <= total
    ensures total < 0 ==> s == 0
    ensures 0 <= score <= total ==> s == score
  {
    Max(0, Min(score, total))
  }

  /** The rounded percentage of the total the clamped score reaches. */
  function Percentage(score: int, total: int): (pct: int)
    requires total != 0
    ensures 0 <= pct <= 100
  {
    var s := ClampedScore(score, total);
    if total > 0 then
      PercentBounds(s as real, total as real);
      RoundBetween(s as real / total as real * 100.0, 0, 100);
      Round(s as real / total as real * 100.0)
    else
      assert s as real / total as real * 100.0 == 0.0;
      Round(s as real / total as real * 100.0)
  }

  /** The running accuracy after the `n`-th game: `round((prev·(n−1) + pct) / n)`. */
  function RunningAccuracy(prev: int, pct: int, n: int): (acc: int)
    requires n >= 1
  {
    Round((prev * (n - 1) + pct) as real / n as real)
  }

  /** The running accuracy stays a percentage, and a game at the running
      accuracy leaves it unchanged. */
  lemma RunningAccuracyBounds(prev: int, pct: int, n: int)
    requires n >= 1 && 0 <= prev <= 100 && 0 <= pct <= 100
    ensures 0 <= RunningAccuracy(prev, pct, n) <= 100
    ensures pct == prev ==> RunningAccuracy(prev, pct, n) == prev
    ensures n == 1 ==> RunningAccuracy(prev, pct, n) == pct
  {
    var num := prev * (n - 1) + pct;
    assert 0 <= prev * (n - 1) <= 100 * (n - 1) by {
      ScaleBound(prev, 100, n - 1);
    }
    AverageBounds(num, n, 100);
    RoundBetween(num as real / n as real, 0, 100);
    if pct == prev {
      assert num == prev * n;
      MultipleDivided(prev, n);
      RoundOfInt(prev);
    }
    if n == 1 {
      RoundOfInt(pct);
    }
  }

  lemma ScaleBound(a: int, b: int, k: int)
    requires 0 <= a <= b && k >= 0
    ensures 0 <= a * k <= b * k
  {
  }

  /** A mean of at most `hi` per item is at most `hi`. */
  lemma AverageBounds(num: int, n: int, hi: int)
    requires n >= 1 && 0 <= num <= hi * n
    ensures 0.0 <= num as real / n as real <= hi as real
  {
    var x := num as real / n as real;
    assert x * n as real == num as real;
    assert (hi * n) as real == hi as real * n as real;
  }

  lemma MultipleDivided(k: int, n: int)
    requires n >= 1
    ensures (k * n) as real / n as real == k as real
  {
    assert (k * n) as real == k as real * n as real;
  }


  /** `x || d` on a number: the default replaces 0. */
  function OrDefault(x: int, d: int): int
  {
    if x == 0 then d else x
  }

  function PerformanceOf(sp: map<Category, Performance>, c: Category): Performance
  {
    if c in sp then sp[c] else Performance(0, 0)
  }

  /** The result of one accepted game: net worth, the two chart histories,
      the game count, the running accuracy and the subject performance. */
  function Recorded(p: Profile, game: GameInfo, score: int, total: int, points: int, now: int): (r: Profile)
    requires total != 0 && points >= 0 && p.gamesPlayed >= 0
    ensures r.netWorth == p.netWorth + NetWorthPerPoint * points
    ensures r.netWorthHistory == p.netWorthHistory + [HistoryPoint(now, r.netWorth)]
    ensures r.scoreHistory == p.scoreHistory + [HistoryPoint(now, Percentage(score, total))]
    ensures r.gamesPlayed == p.gamesPlayed + 1
    ensures r.accuracy == RunningAccuracy(p.accuracy, Percentage(score, total), r.gamesPlayed)
    ensures r.subjectPerformance.Keys == p.subjectPerformance.Keys + {game.category}
    ensures r.subjectPerformance[game.category]
      == Performance(PerformanceOf(p.subjectPerformance, game.category).total + total,
                     PerformanceOf(p.subjectPerformance, game.category).correct + ClampedScore(score, total))
    ensures forall c :: c in p.subjectPerformance && c != game.category ==> r.subjectPerformance[c] == p.subjectPerformance[c]
    ensures r == p.(netWorth := r.netWorth, netWorthHistory := r.netWorthHistory, scoreHistory := r.scoreHistory,
                    gamesPlayed := r.gamesPlayed, accuracy := r.accuracy, subjectPerformance := r.subjectPerformance)
  {
    var pct := Percentage(score, total);
    var netWorth := p.netWorth + NetWorthPerPoint * points;
    var perf := PerformanceOf(p.subjectPerformance, game.category);
    p.(netWorth := netWorth,
       netWorthHistory := p.netWorthHistory + [HistoryPoint(now, netWorth)],
       scoreHistory := p.scoreHistory + [HistoryPoint(now, pct)],
       gamesPlayed := p.gamesPlayed + 1,
       accuracy := RunningAccuracy(p.accuracy, pct, p.gamesPlayed + 1),
       subjectPerformance := p.subjectPerformance[game.category :=
         Performance(perf.total + total, perf.correct + ClampedScore(score, total))])
  }

  /** The per-game stats: Budget Boss raises emergency readiness by the
      points; Debt Escape raises credit health by half the points and
      readiness by 5; Credit Card Master raises credit health by the points;
      the two investing games raise risk exposure by 10. Readiness and risk
      are capped at 100, credit health at 900; a credit health of 0 counts as 700. */
  function StatsAfter(p: Profile, gameId: string, points: int): (r: Profile)
    ensures r == p.(emergencyReadiness := r.emergencyReadiness, creditHealth := r.creditHealth, riskExposure := r.riskExposure)
    ensures gameId == "budget-boss" ==>
      && r.emergencyReadiness == Min(100, p.emergencyReadiness + points)
      && r.creditHealth == p.creditHealth && r.riskExposure == p.riskExposure
    ensures gameId == "savings-sprint" ==>
      && r.creditHealth == Min(900, OrDefault(p.creditHealth, 700) + Round(points as real / 2.0))
      && r.emergencyReadiness == Min(100, p.emergencyReadiness + 5) && r.riskExposure == p.riskExposure
    ensures gameId == "credit-card-swipe" ==>
      && r.creditHealth == Min(900, OrDefault(p.creditHealth, 700) + points)
      && r.emergencyReadiness == p.emergencyReadiness && r.riskExposure == p.riskExposure
    ensures (gameId == "stock-trader" || gameId == "investment-clicker") ==>
      && r.riskExposure == Min(100, p.riskExposure + 10)
      && r.emergencyReadiness == p.emergencyReadiness && r.creditHealth == p.creditHealth
    ensures gameId !in {"budget-boss", "savings-sprint", "credit-card-swipe", "stock-trader", "investment-clicker"} ==> r == p
    ensures p.creditHealth <= 900 ==> r.creditHealth <= 900
    ensures 0 <= p.emergencyReadiness <= 100 && points >= 0 ==> 0 <= r.emergencyReadiness <= 100
    ensures 0 <= p.riskExposure <= 100 ==> 0 <= r.riskExposure <= 100
  {
    if gameId == "budget-boss" then
      p.(emergencyReadiness := Min(100, p.emergencyReadiness + points))
    else if gameId == "savings-sprint" then
      p.(creditHealth := Min(900, OrDefault(p.creditHealth, 700) + Round(points as real / 2.0)),
         emergencyReadiness := Min(100, p.emergencyReadiness + 5))
    else if gameId == "credit-card-swipe" then
      p.(creditHealth := Min(900, OrDefault(p.creditHealth, 700) + points))
    else if gameId == "stock-trader" || gameId == "investment-clicker" then
      p.(riskExposure := Min(100, p.riskExposure + 10))
    else p
  }

  /** The activity history with the newest entry first, cut to 20 entries. */
  function WithActivity(history: seq<Activity>, a: Activity): (r: seq<Activity>)
    ensures |r| == Min(|history| + 1, ActivityCap)
    ensures r[0] == a
    ensures forall i :: 1 <= i < |r| ==> r[i] == history[i - 1]
  {
    var grown := [a] + history;
    if |grown| > ActivityCap then grown[..ActivityCap] else grown
  }

  /** Everything `endGame` does to the profile. Rejected arguments change nothing. */
  function EndGameProfile(p: Profile, game: GameInfo, score: Arg, total: Arg, points: Arg, now: int): (r: Profile)
    requires Valid(p)
    ensures Valid(r)
    ensures !Accepted(score, total, points) ==> r == p
    ensures Accepted(score, total, points) ==>
      var s := ClampedScore(score.n, total.n);
      var pts := Max(0, points.n);
      var q := StatsAfter(Recorded(p, game, score.n, total.n, pts, now), game.id, pts);
      var q' := q.(level := LevelFor(FinancialHealth(q)));
      && r == q'.(badges := Unlocked(q', AllBadges),
                  activityHistory := WithActivity(p.activityHistory, Activity(game.id, pts, s, total.n, now)))
  {
    if !Accepted(score, total, points) then p
    else
      var s := ClampedScore(score.n, total.n);
      var pts := Max(0, points.n);
      var recorded := Recorded(p, game, score.n, total.n, pts, now);
      RunningAccuracyBounds(p.accuracy, Percentage(score.n, total.n), p.gamesPlayed + 1);
      var q := StatsAfter(recorded, game.id, pts);
      var q' := q.(level := LevelFor(FinancialHealth(q)));
      UnlockedFacts(q', AllBadges);
      q'.(badges := Unlocked(q', AllBadges),
          activityHistory := WithActivity(p.activityHistory, Activity(game.id, pts, s, total.n, now)))
  }

  /** An accepted game adds exactly one game, one chart point each, and
      500 net worth per (non-negative) point; the newest activity comes first. */
  lemma EndGameCounts(p: Profile, game: GameInfo, score: Arg, total: Arg, points: Arg, now: int)
    requires Valid(p) && Accepted(score, total, points)
    ensures var r := EndGameProfile(p, game, score, total, points, now);
      && r.gamesPlayed == p.gamesPlayed + 1
      && r.netWorth == p.netWorth + NetWorthPerPoint * Max(0, points.n) >= p.netWorth
      && |r.netWorthHistory| == |p.netWorthHistory| + 1
      && |r.scoreHistory| == |p.scoreHistory| + 1
      && r.activityHistory[0].gameId == game.id
      && |r.activityHistory| == Min(|p.activityHistory| + 1, ActivityCap)
      && r.recentMistakes == p.recentMistakes && r.name == p.name && r.avatar == p.avatar
  {
  }

  /** The analytics log after `endGame`: the completion is logged three times
      (with the score as points and the timer value, then with the recent
      mistakes, then without), and the completion event that follows is a
      repeat that the duplicate guard drops. */
  function EndGameAnalytics(st: Analytics.State, gameId: string, score: int, total: int, points: int,
                            timerValue: int, elapsed: int, mistakes: seq<Mistake>, now: int): (r: Analytics.State)
    requires Analytics.FullHabits(st.spendingHabits)
    ensures Analytics.FullHabits(r.spendingHabits)
  {
    var first := Analytics.Log(st, gameId, score, score, total, OrDefault(timerValue, 60), [], now);
    var second := Analytics.Log(first, gameId, points, score, total, elapsed, mistakes, now);
    Analytics.Log(second, gameId, points, score, total, elapsed, [], now)
  }

  /** The event `endGame` dispatches after logging. */
  function CompletionEventOf(gameId: string, score: int, total: int, points: int, elapsed: int)
    : (e: Analytics.CompletionEvent)
    ensures Analytics.HasGameId(e) == (gameId != "")
    ensures Analytics.EventScore(e) == Some(points)
  {
    Analytics.CompletionEvent(Some(gameId), Some(points), Some(score), Some(total), Some(elapsed), Some([]))
  }

  /** One accepted game leaves three records in the game log, all of this
      game, and the completion event after them changes nothing. */
  lemma EndGameLogsThrice(st: Analytics.State, gameId: string, score: int, total: int, points: int,
                          timerValue: int, elapsed: int, mistakes: seq<Mistake>, now: int)
    requires Analytics.FullHabits(st.spendingHabits) && |st.gameHistory| <= Analytics.GameHistoryCap - 3
    ensures var r := EndGameAnalytics(st, gameId, score, total, points, timerValue, elapsed, mistakes, now);
      && |r.gameHistory| == |st.gameHistory| + 3
      && r.gameHistory[..|st.gameHistory|] == st.gameHistory
      && (forall i :: |st.gameHistory| <= i < |r.gameHistory| ==> r.gameHistory[i].gameId == gameId)
      && Analytics.HandleComplete(r, CompletionEventOf(gameId, score, total, points, elapsed), now) == r
  {
    var n := |st.gameHistory|;
    var first := Analytics.Log(st, gameId, score, score, total, OrDefault(timerValue, 60), [], now);
    LogBelowCap(st, gameId, score, score, total, OrDefault(timerValue, 60), [], now);
    var second := Analytics.Log(first, gameId, points, score, total, elapsed, mistakes, now);
    LogBelowCap(first, gameId, points, score, total, elapsed, mistakes, now);
    var r := Analytics.Log(second, gameId, points, score, total, elapsed, [], now);
    LogBelowCap(second, gameId, points, score, total, elapsed, [], now);
    assert r.gameHistory[..n] == st.gameHistory by {
      assert r.gameHistory[..n] == r.gameHistory[..n + 2][..n];
      assert second.gameHistory[..n] == second.gameHistory[..n + 1][..n];
    }
    forall i | n <= i < |r.gameHistory| ensures r.gameHistory[i].gameId == gameId {
      if i == n {
        assert r.gameHistory[i] == second.gameHistory[i] == first.gameHistory[i];
      } else if i == n + 1 {
        assert r.gameHistory[i] == second.gameHistory[i];
      }
    }
    EventIsRepeat(st, gameId, score, total, points, timerValue, elapsed, mistakes, now);
  }

  /** Below the cap, a completion keeps every earlier record and adds one of this game. */
  lemma LogBelowCap(st: Analytics.State, gameId: string, score: int, correct: int, total: int, timeTaken: int,
                    mistakes: seq<Mistake>, now: int)
    requires Analytics.FullHabits(st.spendingHabits) && |st.gameHistory| < Analytics.GameHistoryCap
    ensures var r := Analytics.Log(st, gameId, score, correct, total, timeTaken, mistakes, now);
      && |r.gameHistory| == |st.gameHistory| + 1
      && r.gameHistory[..|st.gameHistory|] == st.gameHistory
      && r.gameHistory[|st.gameHistory|].gameId == gameId
  {
    Analytics.LogAppendsOne(st, gameId, score, correct, total, timeTaken, mistakes, now);
  }

  // ---------------------------------------------------------------------
  // The application state, updated in place
  // ---------------------------------------------------------------------

  class AppState {
    var name: string
    var avatar: string
    var level: int
    var netWorth: int
    var creditHealth: int
    var emergencyReadiness: int
    var riskExposure: int
    var badges: seq<string>
    var gamesPlayed: int
    var accuracy: int
    var streak: int
    var recentMistakes: seq<Mistake>
    var netWorthHistory: seq<HistoryPoint>
    var scoreHistory: seq<HistoryPoint>
    var subjectPerformance: map<Category, Performance>
    var activityHistory: seq<Activity>

    function Snapshot(): Profile
      reads this
    {
      Profile(name, avatar, level, netWorth, creditHealth, emergencyReadiness, riskExposure, badges,
              gamesPlayed, accuracy, streak, recentMistakes, netWorthHistory, scoreHistory,
              subjectPerformance, activityHistory)
    }

    constructor ()
      ensures Snapshot() == Initial()
    {
      name := "Player";
      avatar := Avatars[0];
      level := 1;
      netWorth := 0;
      creditHealth := 700;
      emergencyReadiness := 0;
      riskExposure := 0;
      badges := [];
      gamesPlayed := 0;
      accuracy := 0;
      streak := 0;
      recentMistakes := [];
      netWorthHistory := [];
      scoreHistory := [];
      subjectPerformance := map[];
      activityHistory := [];
    }

    /** `updateLevel`: reports whether the level rose. */
    method UpdateLevel() returns (leveledUp: bool)
      modifies this
      ensures Snapshot() == old(Snapshot()).(level := LevelFor(FinancialHealth(old(Snapshot()))))
      ensures leveledUp <==> level > old(level)
    {
      var healthScore := FinancialHealth(Snapshot());
      var oldLevel := level;
      var correctLevel := Min(10, Max(1, healthScore / 10 + 1));
      leveledUp := false;
      if correctLevel != oldLevel {
        level := correctLevel;
        if correctLevel > oldLevel {
          leveledUp := true;
        }
      }
    }

    /** `checkNewBadges`. */
    method CheckNewBadges()
      modifies this
      ensures Snapshot() == old(Snapshot()).(badges := Unlocked(old(Snapshot()), AllBadges))
    {
      for i := 0 to |AllBadges|
        invariant Snapshot() == old(Snapshot()).(badges := Unlocked(old(Snapshot()), AllBadges[..i]))
      {
        var badge := AllBadges[i];
        assert AllBadges[..i + 1][..i] == AllBadges[..i];
        if Earned(badge, Snapshot()) && BadgeId(badge) !in badges {
          badges := badges + [BadgeId(badge)];
        }
      }
      assert AllBadges[..|AllBadges|] == AllBadges;
    }

    /** `changeAvatar`. */
    method ChangeAvatar()
      modifies this
      ensures Snapshot() == old(Snapshot()).(avatar := NextAvatar(old(avatar)))
    {
      avatar := CycleNext(Avatars, avatar);
    }

    /** `changeName` with the answer of the prompt. */
    method ChangeName(newName: Option<string>) returns (outcome: NameChange)
      modifies this
      ensures outcome == Rename(newName)
      ensures Snapshot() == old(Snapshot()).(name := if outcome.Renamed? then outcome.name else old(name))
    {
      outcome := Rename(newName);
      if outcome.Renamed? {
        name := outcome.name;
      }
    }

    /** The bookkeeping of an accepted game, up to the stats. */
    method Record(game: GameInfo, score: int, total: int, points: int, now: int)
      requires total != 0 && points >= 0 && gamesPlayed >= 0
      modifies this
      ensures Snapshot() == Recorded(old(Snapshot()), game, score, total, points, now)
    {
      ghost var p0 := Snapshot();
      var percentage := Percentage(score, total);
      netWorth := netWorth + points * NetWorthPerPoint;
      netWorthHistory := netWorthHistory + [HistoryPoint(now, netWorth)];
      scoreHistory := scoreHistory + [HistoryPoint(now, percentage)];
      gamesPlayed := gamesPlayed + 1;
      accuracy := RunningAccuracy(accuracy, percentage, gamesPlayed);
      var perf := PerformanceOf(subjectPerformance, game.category);
      subjectPerformance := subjectPerformance[game.category :=
        Performance(perf.total + total, perf.correct + ClampedScore(score, total))];
      assert Snapshot() == Recorded(p0, game, score, total, points, now);
    }

    method UpdateStats(gameId: string, points: int)
      modifies this
      ensures Snapshot() == StatsAfter(old(Snapshot()), gameId, points)
    {
      if gameId == "budget-boss" {
        emergencyReadiness := Min(100, emergencyReadiness + points);
      } else if gameId == "savings-sprint" {
        creditHealth := Min(900, OrDefault(creditHealth, 700) + Round(points as real / 2.0));
        emergencyReadiness := Min(100, emergencyReadiness + 5);
      } else if gameId == "credit-card-swipe" {
        creditHealth := Min(900, OrDefault(creditHealth, 700) + points);
      } else if gameId == "stock-trader" || gameId == "investment-clicker" {
        riskExposure := Min(100, riskExposure + 10);
      }
    }

    /** `endGame`, with the analytics singleton it logs to, the timer value,
      the elapsed seconds and the current time as inputs. Reports whether
      the completion event was logged again. */
    method EndGame(game: GameInfo, score: Arg, total: Arg, points: Arg, timerValue: int, elapsed: int, now: int,
                   analytics: Analytics.ProgressAnalytics) returns (eventLogged: bool)
      requires Valid(Snapshot()) && analytics.Valid()
      modifies this, analytics
      ensures Valid(Snapshot()) && analytics.Valid()
      ensures Snapshot() == EndGameProfile(old(Snapshot()), game, score, total, points, now)
      ensures !Accepted(score, total, points) ==> analytics.Snapshot() == old(analytics.Snapshot())
      ensures Accepted(score, total, points) ==>
        analytics.Snapshot() == EndGameAnalytics(old(analytics.Snapshot()), game.id, ClampedScore(score.n, total.n),
          total.n, Max(0, points.n), timerValue, elapsed, old(recentMistakes), now)
      ensures !eventLogged
    {
      if !score.Num? || !total.Num? || !points.Num? {
        return false;
      }
      if total.n == 0 {
        return false;
      }
      ghost var p0 := Snapshot();
      var s := ClampedScore(score.n, total.n);
      var pts := Max(0, points.n);
      Record(game, score.n, total.n, pts, now);
      UpdateStats(game.id, pts);
      var _ := UpdateLevel();
      CheckNewBadges();
      activityHistory := WithActivity(activityHistory, Activity(game.id, pts, s, total.n, now));
      assert Snapshot() == EndGameProfile(p0, game, score, total, points, now);
      ghost var st0 := analytics.Snapshot();
      analytics.LogGameCompletion(game.id, s, s, total.n, OrDefault(timerValue, 60), [], now);
      analytics.LogGameCompletion(game.id, pts, s, total.n, elapsed, recentMistakes, now);
      analytics.LogGameCompletion(game.id, pts, s, total.n, elapsed, [], now);
      assert analytics.Snapshot() == EndGameAnalytics(st0, game.id, s, total.n, pts, timerValue, elapsed, p0.recentMistakes, now);
      EventIsRepeat(st0, game.id, s, total.n, pts, timerValue, elapsed, p0.recentMistakes, now);
      eventLogged := analytics.HandleGameComplete(CompletionEventOf(game.id, s, total.n, pts, elapsed), now);
    }

    /** `finishGame`: the points the share of the maximum earns, then `endGame`. */
    method FinishGame(game: GameInfo, score: int, maxScore: int, timerValue: int, elapsed: int, now: int,
                      analytics: Analytics.ProgressAnalytics)
      requires Valid(Snapshot()) && analytics.Valid()
      modifies this, analytics
      ensures Valid(Snapshot()) && analytics.Valid()
      ensures Snapshot() == EndGameProfile(old(Snapshot()), game, Num(score), Num(maxScore),
                                           FinishPoints(game.pointsPerGame, score, maxScore), now)
    {
      var points := FinishPoints(game.pointsPerGame, score, maxScore);
      var _ := EndGame(game, Num(score), Num(maxScore), points, timerValue, elapsed, now, analytics);
    }
  }

  /** The completion event `endGame` dispatches repeats the record just logged. */
  lemma EventIsRepeat(st: Analytics.State, gameId: string, score: int, total: int, points: int,
                      timerValue: int, elapsed: int, mistakes: seq<Mistake>, now: int)
    requires Analytics.FullHabits(st.spendingHabits)
    ensures var r := EndGameAnalytics(st, gameId, score, total, points, timerValue, elapsed, mistakes, now);
      Analytics.IsDuplicate(r, gameId, now)
  {
    var first := Analytics.Log(st, gameId, score, score, total, OrDefault(timerValue, 60), [], now);
    var second := Analytics.Log(first, gameId, points, score, total, elapsed, mistakes, now);
    Analytics.LogAppendsOne(second, gameId, points, score, total, elapsed, [], now);
  }
}
