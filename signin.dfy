/**
 * The sign-in page: the admin and employee login, logout, and the job statistics and
 * progress figures of the admin dashboard.
 */
module SignIn {
  import opened Common

  const AdminUsername: string := "cmti.57@res.in"
  const AdminPassword: string := "admin"

  /**
   * A job assignment. A numeric field is `None` when it is falsy (missing, empty or the
   * number 0), so that `field || 0` reads as 0; otherwise it is what `parseInt` reads.
   */
  datatype Job = Job(targetParts: Option<int>, qualityEstimation: Option<int>, status: string)

  predicate Completed(j: Job) {
    j.status == "completed"
  }

  /** `jobs.reduce((sum, job) => sum + parseInt(job.target_parts || 0), 0)`. */
  function TotalParts(jobs: seq<Job>): (r: int)
    ensures (forall i :: 0 <= i < |jobs| ==> jobs[i].targetParts.GetOr(0) >= 0) ==> r >= 0
  {
    if jobs == [] then 0 else TotalParts(jobs[..|jobs| - 1]) + jobs[|jobs| - 1].targetParts.GetOr(0)
  }

  /** The same fold over `quality_estimation`; percentages in [0, 100] keep the sum in range. */
  function TotalQuality(jobs: seq<Job>): (r: int)
    ensures (forall i :: 0 <= i < |jobs| ==> 0 <= jobs[i].qualityEstimation.GetOr(0) <= 100) ==>
      0 <= r <= 100 * |jobs|
  {
    if jobs == [] then 0 else TotalQuality(jobs[..|jobs| - 1]) + jobs[|jobs| - 1].qualityEstimation.GetOr(0)
  }

  /** `jobs.filter(job => job.status === 'completed').length`. */
  function CompletedCount(jobs: seq<Job>): (n: nat)
    ensures n <= |jobs|
  {
    if jobs == [] then 0 else CompletedCount(jobs[..|jobs| - 1]) + (if Completed(jobs[|jobs| - 1]) then 1 else 0)
  }

  /** `jobs.filter(job => job.status !== 'completed').length`. */
  function ActiveCount(jobs: seq<Job>): (n: nat)
    ensures n <= |jobs|
  {
    if jobs == [] then 0 else ActiveCount(jobs[..|jobs| - 1]) + (if Completed(jobs[|jobs| - 1]) then 0 else 1)
  }

  /** Every job is either active or completed. */
  lemma {:induction false} ActivePlusCompleted(jobs: seq<Job>)
    ensures ActiveCount(jobs) + CompletedCount(jobs) == |jobs|
  {
    if jobs != [] {
      ActivePlusCompleted(jobs[..|jobs| - 1]);
    }
  }

  /** The parts total of two job lists shown one after the other is the sum of their totals. */
  lemma {:induction false} TotalPartsAppend(a: seq<Job>, b: seq<Job>)
    ensures TotalParts(a + b) == TotalParts(a) + TotalParts(b)
  {
    if b == [] {
      assert a + b == a;
    } else {
      var c := a + b;
      assert c[..|c| - 1] == a + b[..|b| - 1];
      TotalPartsAppend(a, b[..|b| - 1]);
    }
  }

  /** A job without a target leaves the parts total where it was. */
  lemma MissingTargetAddsNothing(jobs: seq<Job>, j: Job)
    requires j.targetParts.None?
    ensures TotalParts(jobs + [j]) == TotalParts(jobs)
  {
    TotalPartsAppend(jobs, [j]);
    assert [j][..0] == [];
  }

  /** Jobs without a target add nothing to the parts total. */
  lemma {:induction false} MissingTargetsCountZero(jobs: seq<Job>)
    requires forall i :: 0 <= i < |jobs| ==> jobs[i].targetParts.None?
    ensures TotalParts(jobs) == 0
  {
    if jobs != [] {
      MissingTargetsCountZero(jobs[..|jobs| - 1]);
    }
  }

  datatype Stats = Stats(totalJobs: nat, totalParts: int, avgQuality: int, activeJobs: nat, completionRate: int)

  /** The dashboard statistics over the fetched jobs. */
  function JobStats(jobs: seq<Job>): (s: Stats)
    ensures s.totalJobs == |jobs|
    ensures s.activeJobs + CompletedCount(jobs) == s.totalJobs
    ensures 0 <= s.completionRate <= 100
    ensures jobs == [] ==> s.avgQuality == 0 && s.completionRate == 0 && s.totalParts == 0
    ensures jobs != [] && CompletedCount(jobs) == |jobs| ==> s.completionRate == 100 && s.activeJobs == 0
  {
    ActivePlusCompleted(jobs);
    var n := |jobs|;
    var rate := if n > 0 then CompletionRate(CompletedCount(jobs), n) else 0;
    Stats(
      n,
      TotalParts(jobs),
      if n > 0 then Round(TotalQuality(jobs) as real / n as real) else 0,
      ActiveCount(jobs),
      rate)
  }

  /** `Math.round(completed / total * 100)` for `0 <= completed <= total`, `total > 0`. */
  function CompletionRate(completed: nat, total: nat): (r: int)
    requires 0 < total && completed <= total
    ensures 0 <= r <= 100
    ensures completed == total ==> r == 100
    ensures completed == 0 ==> r == 0
  {
    var pct := completed as real / total as real * 100.0;
    QuotientAtMostOne(completed as real, total as real);
    assert 0.0 <= completed as real / total as real;
    RoundWithin(pct, 0, 100);
    WholeQuotient(completed as real, total as real);
    Round(pct)
  }

  lemma WholeQuotient(a: real, d: real)
    requires 0.0 < d
    ensures a == d ==> a / d == 1.0
  {
    if a == d {
      assert a / d * d == a;
    }
  }

  /**
   * The progress figure of a job card: quality over target (`target || 1`) in percent,
   * rounded and capped at 100. `None` stands for a zero denominator, where the quotient is
   * infinite or NaN.
   */
  function Progress(j: Job): (r: Option<int>)
    ensures r.Some? ==> r.value <= 100
    ensures r.None? <==> j.targetParts == Some(0)
  {
    var target := j.targetParts.GetOr(1);
    if target == 0 then None
    else
      var pct := Round(j.qualityEstimation.GetOr(0) as real / target as real * 100.0);
      Some(if pct < 100 then pct else 100)
  }

  datatype UserType = Admin | Employee

  /** The answer to an employee login. */
  datatype EmployeeReply = Accepted(employee: string) | Rejected(error: Option<string>) | Unreachable

  class Session {
    var userType: UserType
    var employee: Option<string>
    var loggedIn: bool
    var username: string
    var password: string
    var loginError: string
    var loading: bool
    var jobs: seq<Job>

    constructor()
      ensures userType == Admin && employee == None && !loggedIn && username == "" && password == ""
      ensures loginError == "" && !loading && jobs == []
    {
      userType := Admin;
      employee := None;
      loggedIn := false;
      username := "";
      password := "";
      loginError := "";
      loading := false;
      jobs := [];
    }

    /** `fetchJobs`: the reply when it is an array (`Some`), else no jobs. */
    method FetchJobs(reply: Option<seq<Job>>)
      modifies this`jobs
      ensures jobs == reply.GetOr([])
    {
      jobs := reply.GetOr([]);
    }

    /**
     * `handleLogin`. As admin, success needs exactly the fixed username and password; as
     * employee, the backend's reply decides. `jobsReply` is what the jobs fetch after a
     * successful login returns.
     */
    method HandleLogin(employeeReply: EmployeeReply, jobsReply: Option<seq<Job>>)
      modifies this
      ensures !loading && username == old(username) && password == old(password)
      ensures old(userType) == Admin ==>
        (loggedIn <==> old(loggedIn) || (old(username) == AdminUsername && old(password) == AdminPassword))
      ensures old(userType) == Admin && old(username) == AdminUsername && old(password) == AdminPassword ==>
        loggedIn && userType == Admin && loginError == "" && jobs == jobsReply.GetOr([]) && employee == old(employee)
      ensures old(userType) == Admin && !(old(username) == AdminUsername && old(password) == AdminPassword) ==>
        loginError == "Invalid username or password" && userType == Admin && jobs == old(jobs)
        && employee == old(employee)
      ensures old(userType) == Employee && employeeReply.Accepted? ==>
        loggedIn && userType == Employee && employee == Some(employeeReply.employee)
        && loginError == "" && jobs == jobsReply.GetOr([])
      ensures old(userType) == Employee && employeeReply.Rejected? ==>
        loggedIn == old(loggedIn) && userType == Employee && jobs == old(jobs) && employee == old(employee)
        && loginError == (if employeeReply.error.Some? && employeeReply.error.value != "" then employeeReply.error.value else "Invalid credentials")
      ensures old(userType) == Employee && employeeReply.Unreachable? ==>
        loggedIn == old(loggedIn) && userType == Employee && jobs == old(jobs) && employee == old(employee)
        && loginError == "Login failed. Please try again."
    {
      loading := true;
      loginError := "";
      if userType == Admin {
        if username == AdminUsername && password == AdminPassword {
          loggedIn := true;
          userType := Admin;
          FetchJobs(jobsReply);
        } else {
          loginError := "Invalid username or password";
        }
      } else {
        match employeeReply {
          case Accepted(e) =>
            loggedIn := true;
            userType := Employee;
            employee := Some(e);
            FetchJobs(jobsReply);
          case Rejected(error) =>
            loginError := if error.Some? && error.value != "" then error.value else "Invalid credentials";
          case Unreachable =>
            loginError := "Login failed. Please try again.";
        }
      }
      loading := false;
    }

    /** `handleLogout`: logged out as admin, with no employee and blank credentials. */
    method HandleLogout()
      modifies this
      ensures !loggedIn && userType == Admin && employee == None && username == "" && password == ""
      ensures loginError == old(loginError) && loading == old(loading) && jobs == old(jobs)
    {
      loggedIn := false;
      userType := Admin;
      employee := None;
      username := "";
      password := "";
    }
  }
}
