/** The dashboard's aggregation of the fetched job posts, applications,
    users and interviews: headline counts, the application status
    histogram, six calendar-month buckets of job posts and applications,
    cumulative user growth, the conversion funnel, and the CSV report.

    Timestamps are integers; a record whose date is missing or unparsable
    (an Invalid Date, which compares false with everything) is `None`.
    Months are numbered consecutively (12 * year + month), so "i months
    before now" is a subtraction; the calendar that gives the first instant
    of each month is a parameter `start`. */
module Dashboard {
  import opened Values
  import opened Text
  import Csv

  datatype JobPost = JobPost(status: Option<string>, createdAt: Option<int>, viewCount: Option<int>)
  datatype Application = Application(status: Option<string>, appliedAt: Option<int>)
  datatype User = User(isActive: Option<bool>, createdAt: Option<int>)

  /** What a `getList` call resolves to: the fetched rows and the server's
      total. */
  datatype Page<T> = Page(data: seq<T>, total: Option<int>)

  datatype Stats = Stats(
    totalJobPosts: int,
    publishedJobs: nat,
    totalApplicants: int,
    totalUsers: int,
    activeUsers: nat,
    blockedUsers: nat,
    totalInterviews: int)

  // ---------------------------------------------------------------- counts

  /** The job posts whose status is exactly "published". */
  function CountPublished(jobs: seq<JobPost>): (n: nat)
    ensures n <= |jobs|
    ensures n == 0 <==> forall i :: 0 <= i < |jobs| ==> jobs[i].status != Some("published")
    ensures n == |jobs| <==> forall i :: 0 <= i < |jobs| ==> jobs[i].status == Some("published")
  {
    if jobs == [] then 0
    else CountPublished(jobs[..|jobs| - 1]) + (if jobs[|jobs| - 1].status == Some("published") then 1 else 0)
  }

  /** The users whose `isActive` is exactly the boolean `b`. */
  function CountActive(users: seq<User>, b: bool): (n: nat)
    ensures n <= |users|
    ensures n == 0 <==> forall i :: 0 <= i < |users| ==> users[i].isActive != Some(b)
  {
    if users == [] then 0
    else CountActive(users[..|users| - 1], b) + (if users[|users| - 1].isActive == Some(b) then 1 else 0)
  }

  /** No user is both active and blocked, so the two counts add up to at
      most the number of users, and to exactly that number when every user
      has a boolean `isActive`. */
  lemma {:induction false} ActiveBlockedBound(users: seq<User>)
    ensures CountActive(users, true) + CountActive(users, false) <= |users|
    ensures CountActive(users, true) + CountActive(users, false) == |users|
      <==> forall i :: 0 <= i < |users| ==> users[i].isActive.Some?
  {
    if users != [] {
      var init := users[..|users| - 1];
      var last := users[|users| - 1];
      ActiveBlockedBound(init);
      assert forall i :: 0 <= i < |init| ==> init[i] == users[i];
      BoolCases(last.isActive);
      if CountActive(users, true) + CountActive(users, false) == |users| {
        forall i | 0 <= i < |users| ensures users[i].isActive.Some? {
          if i < |init| {
            assert users[i] == init[i];
          }
        }
      }
    }
  }

  /** The headline cards: server totals (`total || 0`) and counts over the
      fetched rows. */
  function DashboardStats(jobs: Page<JobPost>, apps: Page<Application>, users: Page<User>, interviewsTotal: Option<int>): (s: Stats)
    ensures s.publishedJobs == CountPublished(jobs.data) && s.publishedJobs <= |jobs.data|
    ensures s.activeUsers == CountActive(users.data, true) && s.blockedUsers == CountActive(users.data, false)
    ensures s.activeUsers + s.blockedUsers <= |users.data|
    ensures s.totalJobPosts == (if TruthyInt(jobs.total) then jobs.total.value else 0)
    ensures s.totalApplicants == (if TruthyInt(apps.total) then apps.total.value else 0)
    ensures s.totalUsers == (if TruthyInt(users.total) then users.total.value else 0)
    ensures s.totalInterviews == (if TruthyInt(interviewsTotal) then interviewsTotal.value else 0)
  {
    ActiveBlockedBound(users.data);
    Stats(
      OrInt(jobs.total, 0),
      CountPublished(jobs.data),
      OrInt(apps.total, 0),
      OrInt(users.total, 0),
      CountActive(users.data, true),
      CountActive(users.data, false),
      OrInt(interviewsTotal, 0))
  }

  // ---------------------------------------------------------------- status histogram

  /** `app.status || "pending"`. */
  function StatusOf(a: Application): (s: string)
    ensures s != []
    ensures Truthy(a.status) ==> s == a.status.value
  {
    Or(a.status, "pending")
  }

  /** The applications filed under status `s`. */
  function CountStatus(apps: seq<Application>, s: string): (n: nat)
    ensures n <= |apps|
    ensures n > 0 <==> exists i :: 0 <= i < |apps| && StatusOf(apps[i]) == s
  {
    if apps == [] then 0
    else CountStatus(apps[..|apps| - 1], s) + (if StatusOf(apps[|apps| - 1]) == s then 1 else 0)
  }

  /** The statuses in the order they first occur: the key order of the
      `statusCounts` object. */
  function FirstSeen(apps: seq<Application>): (keys: seq<string>)
    ensures forall i, j :: 0 <= i < j < |keys| ==> keys[i] != keys[j]
    ensures forall s :: s in keys <==> exists i :: 0 <= i < |apps| && StatusOf(apps[i]) == s
  {
    if apps == [] then []
    else
      var keys := FirstSeen(apps[..|apps| - 1]);
      var s := StatusOf(apps[|apps| - 1]);
      if s in keys then keys else keys + [s]
  }

  /** The number of applications filed under the statuses `keys`. */
  function TotalOf(keys: seq<string>, apps: seq<Application>): nat
  {
    if keys == [] then 0 else TotalOf(keys[..|keys| - 1], apps) + CountStatus(apps, keys[|keys| - 1])
  }

  /** One more application adds one to the total of distinct statuses
      exactly when its status is among them. */
  lemma {:induction false} TotalOfAppend(keys: seq<string>, apps: seq<Application>, a: Application)
    requires forall i, j :: 0 <= i < j < |keys| ==> keys[i] != keys[j]
    ensures TotalOf(keys, apps + [a]) == TotalOf(keys, apps) + (if StatusOf(a) in keys then 1 else 0)
  {
    if keys != [] {
      var init := keys[..|keys| - 1];
      TotalOfAppend(init, apps, a);
      assert (apps + [a])[..|apps|] == apps;
      assert StatusOf(a) in keys <==> StatusOf(a) in init || StatusOf(a) == keys[|keys| - 1];
      assert keys[|keys| - 1] !in init;
    }
  }

  /** Every application is counted under exactly one status. */
  lemma {:induction false} HistogramTotal(apps: seq<Application>)
    ensures TotalOf(FirstSeen(apps), apps) == |apps|
  {
    if apps != [] {
      var init := apps[..|apps| - 1];
      var a := apps[|apps| - 1];
      assert apps == init + [a];
      var keys := FirstSeen(init);
      HistogramTotal(init);
      TotalOfAppend(keys, init, a);
      if StatusOf(a) !in keys {
        assert CountStatus(init, StatusOf(a)) == 0;
      }
    }
  }

  /** A pie-chart slice. */
  datatype Slice = Slice(name: string, value: nat)

  function SliceTotal(slices: seq<Slice>): nat
  {
    if slices == [] then 0 else SliceTotal(slices[..|slices| - 1]) + slices[|slices| - 1].value
  }

  lemma {:induction false} SliceTotalOf(slices: seq<Slice>, keys: seq<string>, apps: seq<Application>)
    requires |slices| == |keys|
    requires forall k :: 0 <= k < |keys| ==> slices[k].value == CountStatus(apps, keys[k])
    ensures SliceTotal(slices) == TotalOf(keys, apps)
  {
    if keys != [] {
      SliceTotalOf(slices[..|slices| - 1], keys[..|keys| - 1], apps);
    }
  }

  /** The display name of a status: its first character upper-cased, then
      the rest with every underscore turned into a space. */
  function StatusLabel(s: string): (r: string)
    ensures |r| == |s|
    ensures s != [] ==> r[0] == ToUpper(s[0])
    ensures forall i :: 1 <= i < |s| ==> r[i] == (if s[i] == '_' then ' ' else s[i])
    ensures forall i :: 1 <= i < |r| ==> r[i] != '_'
  {
    if s == [] then [] else [ToUpper(s[0])] + ReplaceAll(s[1..], '_', ' ')
  }

  /** The state of the `statusCounts` loop after the first `i`
      applications: the keys in insertion order, and each key's count. */
  ghost predicate Tally(apps: seq<Application>, i: nat, keys: seq<string>, counts: map<string, nat>)
    requires i <= |apps|
  {
    && keys == FirstSeen(apps[..i])
    && (forall k :: k in counts <==> k in keys)
    && (forall k :: k in counts ==> counts[k] == CountStatus(apps[..i], k))
  }

  /** Counting one more application: its status's count grows by one,
      and its status joins the keys unless it is already there. */
  lemma TallyStep(apps: seq<Application>, i: nat, keys: seq<string>, counts: map<string, nat>)
    requires i < |apps| && Tally(apps, i, keys, counts)
    ensures var s := StatusOf(apps[i]);
      && (s in counts <==> s in keys)
      && Tally(apps, i + 1, if s in keys then keys else keys + [s],
               if s in counts then counts[s := counts[s] + 1] else counts[s := 1])
  {
    var s := StatusOf(apps[i]);
    assert apps[..i + 1][..i] == apps[..i];
    var counts' := if s in counts then counts[s := counts[s] + 1] else counts[s := 1];
    forall k | k in counts' ensures counts'[k] == CountStatus(apps[..i + 1], k) {
    }
  }

  /** One slice per key, in key order, with its label and count. */
  function Slices(keys: seq<string>, counts: map<string, nat>): (slices: seq<Slice>)
    requires forall k :: k in keys ==> k in counts
    ensures |slices| == |keys|
    ensures forall k :: 0 <= k < |keys| ==> slices[k] == Slice(StatusLabel(keys[k]), counts[keys[k]])
  {
    seq(|keys|, k requires 0 <= k < |keys| => Slice(StatusLabel(keys[k]), counts[keys[k]]))
  }

  /** Once every application is counted, the slices are the statuses in
      first-seen order, each with its positive count, and together they
      account for every application. */
  lemma TallySlices(apps: seq<Application>, keys: seq<string>, counts: map<string, nat>)
    requires Tally(apps, |apps|, keys, counts)
    ensures forall k :: k in keys ==> k in counts
    ensures var slices := Slices(keys, counts);
      && |slices| == |FirstSeen(apps)|
      && (forall k :: 0 <= k < |slices| ==>
            slices[k] == Slice(StatusLabel(FirstSeen(apps)[k]), CountStatus(apps, FirstSeen(apps)[k])))
      && (forall k :: 0 <= k < |slices| ==> slices[k].value > 0)
      && SliceTotal(slices) == |apps|
  {
    assert apps[..|apps|] == apps;
    var slices := Slices(keys, counts);
    forall k | 0 <= k < |keys|
      ensures counts[keys[k]] == CountStatus(apps, keys[k]) && counts[keys[k]] > 0
    {
      assert keys[k] in keys;
    }
    SliceTotalOf(slices, keys, apps);
    HistogramTotal(apps);
  }

  /** Lines 190-201 of `fetchStats`: `statusCounts` is filled application
      by application, then each key, in insertion order, becomes a slice
      with its label and count. */
  method ApplicationsByStatus(apps: seq<Application>) returns (slices: seq<Slice>)
    ensures |slices| == |FirstSeen(apps)|
    ensures forall k :: 0 <= k < |slices| ==>
      slices[k] == Slice(StatusLabel(FirstSeen(apps)[k]), CountStatus(apps, FirstSeen(apps)[k]))
    ensures forall k :: 0 <= k < |slices| ==> slices[k].value > 0
    ensures SliceTotal(slices) == |apps|
  {
    var counts: map<string, nat> := map[];
    var keys: seq<string> := [];
    var i := 0;
    while i < |apps|
      invariant 0 <= i <= |apps|
      invariant Tally(apps, i, keys, counts)
    {
      var status := StatusOf(apps[i]);
      TallyStep(apps, i, keys, counts);
      if status in counts {
        counts := counts[status := counts[status] + 1];
      } else {
        counts := counts[status := 1];
        keys := keys + [status];
      }
      i := i + 1;
    }
    TallySlices(apps, keys, counts);
    slices := Slices(keys, counts);
  }

  // ---------------------------------------------------------------- months

  /** Lines 208-216 of `fetchStats`: the month `i` months before `now`, for
      `i` from 5 down to 0, so the oldest month comes first. */
  method LastSixMonths(now: int) returns (months: seq<int>)
    ensures |months| == 6
    ensures forall k :: 0 <= k < 6 ==> months[k] == now - 5 + k
    ensures months[5] == now
  {
    months := [];
    var i := 5;
    while i >= 0
      invariant -1 <= i <= 5
      invariant |months| == 5 - i
      invariant forall k :: 0 <= k < |months| ==> months[k] == now - 5 + k
    {
      months := months + [now - i];
      i := i - 1;
    }
  }

  /** The months of `months` follow one another. */
  predicate Consecutive(months: seq<int>)
  {
    forall k :: 0 < k < |months| ==> months[k] == months[k - 1] + 1
  }

  /** A calendar whose months start ever later. */
  ghost predicate Increasing(start: int -> int)
  {
    forall m, m' :: m < m' ==> start(m) < start(m')
  }

  /** The dates in the half-open interval [lo, hi). */
  function CountInRange(dates: seq<Option<int>>, lo: int, hi: int): (n: nat)
    ensures n <= |dates|
    ensures hi <= lo ==> n == 0
  {
    if dates == [] then 0
    else
      var d := dates[|dates| - 1];
      CountInRange(dates[..|dates| - 1], lo, hi) + (if d.Some? && lo <= d.value < hi then 1 else 0)
  }

  /** The dates strictly before `hi`. */
  function CountBefore(dates: seq<Option<int>>, hi: int): (n: nat)
    ensures n <= |dates|
  {
    if dates == [] then 0
    else
      var d := dates[|dates| - 1];
      CountBefore(dates[..|dates| - 1], hi) + (if d.Some? && d.value < hi then 1 else 0)
  }

  /** Adjacent half-open intervals split a count without overlap or gap. */
  lemma {:induction false} RangeSplit(dates: seq<Option<int>>, a: int, b: int, c: int)
    requires a <= b <= c
    ensures CountInRange(dates, a, c) == CountInRange(dates, a, b) + CountInRange(dates, b, c)
  {
    if dates != [] {
      RangeSplit(dates[..|dates| - 1], a, b, c);
    }
  }

  /** Everything before `c` is everything before `b` plus [b, c). */
  lemma {:induction false} BeforeSplit(dates: seq<Option<int>>, b: int, c: int)
    requires b <= c
    ensures CountBefore(dates, c) == CountBefore(dates, b) + CountInRange(dates, b, c)
  {
    if dates != [] {
      BeforeSplit(dates[..|dates| - 1], b, c);
    }
  }

  /** A month's records are among the records up to its end. */
  lemma {:induction false} RangeWithinBefore(dates: seq<Option<int>>, lo: int, hi: int)
    ensures CountInRange(dates, lo, hi) <= CountBefore(dates, hi)
  {
    if dates != [] {
      RangeWithinBefore(dates[..|dates| - 1], lo, hi);
    }
  }

  function JobDates(jobs: seq<JobPost>): (d: seq<Option<int>>)
    ensures |d| == |jobs| && forall i :: 0 <= i < |jobs| ==> d[i] == jobs[i].createdAt
  {
    seq(|jobs|, i requires 0 <= i < |jobs| => jobs[i].createdAt)
  }

  function ApplicationDates(apps: seq<Application>): (d: seq<Option<int>>)
    ensures |d| == |apps| && forall i :: 0 <= i < |apps| ==> d[i] == apps[i].appliedAt
  {
    seq(|apps|, i requires 0 <= i < |apps| => apps[i].appliedAt)
  }

  function UserDates(users: seq<User>): (d: seq<Option<int>>)
    ensures |d| == |users| && forall i :: 0 <= i < |users| ==> d[i] == users[i].createdAt
  {
    seq(|users|, i requires 0 <= i < |users| => users[i].createdAt)
  }

  // ---------------------------------------------------------------- trend

  datatype TrendPoint = TrendPoint(month: int, jobPosts: nat, applications: nat)

  /** One trend point: the job posts created and applications filed in
      [start of the month, start of the next month). */
  function TrendAt(m: int, jobs: seq<JobPost>, apps: seq<Application>, start: int -> int): (p: TrendPoint)
    ensures p.month == m && p.jobPosts <= |jobs| && p.applications <= |apps|
    ensures start(m + 1) <= start(m) ==> p.jobPosts == 0 && p.applications == 0
  {
    TrendPoint(m, CountInRange(JobDates(jobs), start(m), start(m + 1)), CountInRange(ApplicationDates(apps), start(m), start(m + 1)))
  }

  /** `last6Months.map(...)` for the job-post and application trend. */
  function Trend(months: seq<int>, jobs: seq<JobPost>, apps: seq<Application>, start: int -> int): (r: seq<TrendPoint>)
    ensures |r| == |months|
    ensures forall k :: 0 <= k < |r| ==> r[k] == TrendAt(months[k], jobs, apps, start)
  {
    if months == [] then []
    else Trend(months[..|months| - 1], jobs, apps, start) + [TrendAt(months[|months| - 1], jobs, apps, start)]
  }

  function JobPostTotal(r: seq<TrendPoint>): nat
  {
    if r == [] then 0 else JobPostTotal(r[..|r| - 1]) + r[|r| - 1].jobPosts
  }

  function ApplicationTotal(r: seq<TrendPoint>): nat
  {
    if r == [] then 0 else ApplicationTotal(r[..|r| - 1]) + r[|r| - 1].applications
  }

  /** The window's months start no earlier than the first one, and each
      ends no earlier than it starts. */
  ghost predicate WindowBounds(months: seq<int>, start: int -> int)
    requires |months| > 0
  {
    forall j :: 0 <= j < |months| ==> start(months[0]) <= start(months[j]) <= start(months[j] + 1)
  }

  /** An increasing calendar bounds every window of consecutive months. */
  lemma IncreasingBounds(months: seq<int>, start: int -> int)
    requires Increasing(start)
    requires |months| > 0 && Consecutive(months)
    ensures WindowBounds(months, start)
  {
    ConsecutiveValues(months);
    forall j | 0 <= j < |months| ensures start(months[0]) <= start(months[j]) <= start(months[j] + 1) {
      assert start(months[j]) < start(months[j] + 1);
      if j > 0 {
        assert start(months[0]) < start(months[j]);
      }
    }
  }

  /** Dropping the last of several consecutive months keeps the window's
      properties, and the dropped month follows the new last one. */
  lemma WindowStep(months: seq<int>, start: int -> int)
    requires |months| > 1 && Consecutive(months) && WindowBounds(months, start)
    ensures var init := months[..|months| - 1];
      && Consecutive(init) && WindowBounds(init, start)
      && init[0] == months[0]
      && init[|init| - 1] + 1 == months[|months| - 1]
  {
    var init := months[..|months| - 1];
    forall j | 0 <= j < |init| ensures init[j] == months[j] { }
  }

  /** The job-post buckets of consecutive months add up to the job posts of
      the whole window. */
  lemma {:induction false} JobPostsCoverWindow(months: seq<int>, jobs: seq<JobPost>, apps: seq<Application>, start: int -> int)
    requires |months| > 0 && Consecutive(months) && WindowBounds(months, start)
    ensures JobPostTotal(Trend(months, jobs, apps, start))
      == CountInRange(JobDates(jobs), start(months[0]), start(months[|months| - 1] + 1))
  {
    var n := |months|;
    var last := months[n - 1];
    if n == 1 {
      assert Trend(months, jobs, apps, start) == [TrendAt(last, jobs, apps, start)];
    } else {
      var init := months[..n - 1];
      WindowStep(months, start);
      JobPostsCoverWindow(init, jobs, apps, start);
      var r := Trend(months, jobs, apps, start);
      var r0 := Trend(init, jobs, apps, start);
      assert r == r0 + [TrendAt(last, jobs, apps, start)];
      assert r[..|r| - 1] == r0;
      assert JobPostTotal(r) == JobPostTotal(r0) + r[|r| - 1].jobPosts;
      assert start(months[0]) <= start(last) <= start(last + 1);
      RangeSplit(JobDates(jobs), start(months[0]), start(last), start(last + 1));
    }
  }

  /** The application buckets of consecutive months add up to the
      applications of the whole window. */
  lemma {:induction false} ApplicationsCoverWindow(months: seq<int>, jobs: seq<JobPost>, apps: seq<Application>, start: int -> int)
    requires |months| > 0 && Consecutive(months) && WindowBounds(months, start)
    ensures ApplicationTotal(Trend(months, jobs, apps, start))
      == CountInRange(ApplicationDates(apps), start(months[0]), start(months[|months| - 1] + 1))
  {
    var n := |months|;
    var last := months[n - 1];
    if n == 1 {
      assert Trend(months, jobs, apps, start) == [TrendAt(last, jobs, apps, start)];
    } else {
      var init := months[..n - 1];
      WindowStep(months, start);
      ApplicationsCoverWindow(init, jobs, apps, start);
      var r := Trend(months, jobs, apps, start);
      var r0 := Trend(init, jobs, apps, start);
      assert r == r0 + [TrendAt(last, jobs, apps, start)];
      assert r[..|r| - 1] == r0;
      assert ApplicationTotal(r) == ApplicationTotal(r0) + r[|r| - 1].applications;
      assert start(months[0]) <= start(last) <= start(last + 1);
      RangeSplit(ApplicationDates(apps), start(months[0]), start(last), start(last + 1));
    }
  }

  /** Over consecutive months, the buckets neither overlap nor leave gaps:
      together they hold exactly the records dated from the start of the
      first month to the start of the month after the last. */
  lemma TrendCoversWindow(months: seq<int>, jobs: seq<JobPost>, apps: seq<Application>, start: int -> int)
    requires Increasing(start)
    requires |months| > 0 && Consecutive(months)
    ensures var r := Trend(months, jobs, apps, start);
      var lo := start(months[0]);
      var hi := start(months[|months| - 1] + 1);
      && JobPostTotal(r) == CountInRange(JobDates(jobs), lo, hi)
      && ApplicationTotal(r) == CountInRange(ApplicationDates(apps), lo, hi)
  {
    IncreasingBounds(months, start);
    JobPostsCoverWindow(months, jobs, apps, start);
    ApplicationsCoverWindow(months, jobs, apps, start);
  }

  /** Each of the six months sees exactly the records dated in it and in no
      other, because an increasing calendar makes the six intervals
      disjoint. */
  lemma BucketsDisjoint(months: seq<int>, start: int -> int, t: int, k: int, k': int)
    requires Increasing(start)
    requires Consecutive(months)
    requires 0 <= k < |months| && 0 <= k' < |months| && k != k'
    requires start(months[k]) <= t < start(months[k] + 1)
    ensures !(start(months[k']) <= t < start(months[k'] + 1))
  {
    ConsecutiveValues(months);
    if k < k' {
      assert start(months[k] + 1) <= start(months[k']);
    } else {
      assert start(months[k'] + 1) <= start(months[k]);
    }
  }

  lemma ConsecutiveValues(months: seq<int>)
    requires Consecutive(months)
    ensures forall k :: 0 <= k < |months| ==> months[k] == months[0] + k
  {
    var k := 0;
    while k < |months|
      invariant 0 <= k <= |months|
      invariant forall j :: 0 <= j < k ==> months[j] == months[0] + j
    {
      if k > 0 {
        assert months[k] == months[k - 1] + 1;
      }
      k := k + 1;
    }
  }

  // ---------------------------------------------------------------- user growth

  datatype GrowthPoint = GrowthPoint(month: int, totalUsers: nat, newUsers: nat)

  /** One growth point: users created in the month, and users created
      before the month ends. */
  function GrowthAt(m: int, users: seq<User>, start: int -> int): (g: GrowthPoint)
    ensures g.newUsers <= g.totalUsers
  {
    RangeWithinBefore(UserDates(users), start(m), start(m + 1));
    GrowthPoint(m, CountBefore(UserDates(users), start(m + 1)), CountInRange(UserDates(users), start(m), start(m + 1)))
  }

  /** `last6Months.map(...)` for user growth. */
  function UserGrowth(months: seq<int>, users: seq<User>, start: int -> int): (r: seq<GrowthPoint>)
    ensures |r| == |months|
    ensures forall k :: 0 <= k < |r| ==> r[k] == GrowthAt(months[k], users, start)
    ensures forall k :: 0 <= k < |r| ==> r[k].newUsers <= r[k].totalUsers
  {
    if months == [] then []
    else UserGrowth(months[..|months| - 1], users, start) + [GrowthAt(months[|months| - 1], users, start)]
  }

  /** Over consecutive months the total is cumulative: each month's total is
      the previous total plus that month's new users, so it never
      decreases. */
  lemma GrowthCumulative(months: seq<int>, users: seq<User>, start: int -> int)
    requires Increasing(start)
    requires Consecutive(months)
    ensures var r := UserGrowth(months, users, start);
      forall k :: 0 < k < |r| ==> r[k].totalUsers == r[k - 1].totalUsers + r[k].newUsers
    ensures var r := UserGrowth(months, users, start);
      forall k :: 0 < k < |r| ==> r[k - 1].totalUsers <= r[k].totalUsers
  {
    var r := UserGrowth(months, users, start);
    forall k | 0 < k < |r|
      ensures r[k].totalUsers == r[k - 1].totalUsers + r[k].newUsers
    {
      var m := months[k];
      assert months[k - 1] + 1 == m;
      assert start(m) < start(m + 1);
      BeforeSplit(UserDates(users), start(m), start(m + 1));
    }
  }

  // ---------------------------------------------------------------- funnel

  /** The applications whose status is one of `statuses`. */
  function CountStatusIn(apps: seq<Application>, statuses: set<string>): (n: nat)
    ensures n <= |apps|
  {
    if apps == [] then 0
    else
      var a := apps[|apps| - 1];
      CountStatusIn(apps[..|apps| - 1], statuses) + (if a.status.Some? && a.status.value in statuses then 1 else 0)
  }

  /** Counting over a larger set of statuses never gives fewer. */
  lemma {:induction false} CountStatusInMono(apps: seq<Application>, s: set<string>, t: set<string>)
    requires s <= t
    ensures CountStatusIn(apps, s) <= CountStatusIn(apps, t)
  {
    if apps != [] {
      CountStatusInMono(apps[..|apps| - 1], s, t);
    }
  }

  /** `jobs.reduce((sum, job) => sum + (job.viewCount || 0), 0)`. */
  function TotalViews(jobs: seq<JobPost>): int
  {
    if jobs == [] then 0 else TotalViews(jobs[..|jobs| - 1]) + OrInt(jobs[|jobs| - 1].viewCount, 0)
  }

  datatype Stage = Stage(stage: string, count: int)

  const ReviewedStatuses: set<string> := {"reviewed", "shortlisted", "hired"}
  const ShortlistedStatuses: set<string> := {"shortlisted", "hired"}
  const HiredStatuses: set<string> := {"hired"}

  /** The conversion funnel, widest stage first. */
  function Funnel(jobs: seq<JobPost>, apps: Page<Application>, interviewsTotal: Option<int>): (r: seq<Stage>)
    ensures |r| == 6
    ensures r[0].stage == "Job Views" && r[1].stage == "Applications" && r[2].stage == "Reviewed"
    ensures r[3].stage == "Shortlisted" && r[4].stage == "Interviews" && r[5].stage == "Hired"
    ensures r[2].count == CountStatusIn(apps.data, ReviewedStatuses)
    ensures r[3].count == CountStatusIn(apps.data, ShortlistedStatuses)
    ensures r[5].count == CountStatusIn(apps.data, HiredStatuses)
    ensures r[4].count == (if TruthyInt(interviewsTotal) then interviewsTotal.value else 0)
    ensures r[2].count >= r[3].count >= r[5].count >= 0
    ensures r[2].count <= |apps.data|
    ensures r[1].count == (if TruthyInt(apps.total) then apps.total.value else 0)
    ensures TotalViews(jobs) > 0 ==> r[0].count == TotalViews(jobs)
    ensures TotalViews(jobs) <= 0 ==> r[0].count == 2 * r[1].count
  {
    var totalViews := TotalViews(jobs);
    var totalApps := OrInt(apps.total, 0);
    CountStatusInMono(apps.data, ShortlistedStatuses, ReviewedStatuses);
    CountStatusInMono(apps.data, HiredStatuses, ShortlistedStatuses);
    [
      Stage("Job Views", if totalViews > 0 then totalViews else totalApps * 2),
      Stage("Applications", totalApps),
      Stage("Reviewed", CountStatusIn(apps.data, ReviewedStatuses)),
      Stage("Shortlisted", CountStatusIn(apps.data, ShortlistedStatuses)),
      Stage("Interviews", OrInt(interviewsTotal, 0)),
      Stage("Hired", CountStatusIn(apps.data, HiredStatuses))
    ]
  }

  // ---------------------------------------------------------------- report

  /** A report row: its keys in insertion order and the printed value of
      each. */
  datatype Row = Row(keys: seq<string>, values: map<string, string>)

  /** `${row[header]}`: a key the row lacks prints as "undefined". */
  function CellOf(row: Row, header: string): (cell: string)
    ensures header in row.values ==> cell == row.values[header]
    ensures header !in row.values ==> cell == "undefined"
  {
    if header in row.values then row.values[header] else "undefined"
  }

  function ReportCells(data: seq<Row>, headers: seq<string>): (rows: seq<seq<string>>)
    ensures |rows| == |data|
    ensures forall i :: 0 <= i < |data| ==> |rows[i]| == |headers|
    ensures forall i, j :: 0 <= i < |data| && 0 <= j < |headers| ==> rows[i][j] == CellOf(data[i], headers[j])
  {
    seq(|data|, i requires 0 <= i < |data| => seq(|headers|, j requires 0 <= j < |headers| => CellOf(data[i], headers[j])))
  }

  /** `exportReport`'s CSV text: nothing for no data, otherwise the keys of
      the first row as header and every row's values under those keys. */
  function ExportReport(data: seq<Row>): (csv: Option<string>)
    ensures csv.None? <==> data == []
  {
    if data == [] then None
    else Some(Csv.Document(data[0].keys, ReportCells(data, data[0].keys)))
  }

  /** No key and no value holds a line break. */
  predicate SingleLineRows(data: seq<Row>)
  {
    forall i :: 0 <= i < |data| ==>
      (forall k :: k in data[i].keys ==> '\n' !in k) && (forall k :: k in data[i].values ==> '\n' !in data[i].values[k])
  }

  /** A report of single-line values has one line of headers, the first
      row's keys unquoted, then one line per row in order whose cells are
      that row's values under those keys, quoted. */
  lemma ExportReportLines(data: seq<Row>)
    requires data != [] && SingleLineRows(data)
    ensures var lines := Split(ExportReport(data).value, '\n');
      && |lines| == |data| + 1
      && lines[0] == Join(data[0].keys, ",")
      && forall i :: 0 <= i < |data| ==> lines[i + 1] == Csv.RowLine(ReportCells(data, data[0].keys)[i])
  {
    var headers := data[0].keys;
    var rows := ReportCells(data, headers);
    forall i, j | 0 <= i < |rows| && 0 <= j < |rows[i]| ensures '\n' !in rows[i][j] {
      assert rows[i][j] == CellOf(data[i], headers[j]);
    }
    forall j | 0 <= j < |headers| ensures '\n' !in headers[j] {
      assert headers[j] in data[0].keys;
    }
    Csv.DocumentLines(headers, rows);
  }
}
