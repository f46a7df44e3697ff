/** The session's state container: the current user, the job, application and
    company lists, and the handlers that replace them; plus the role-scoped
    views computed from that state. */
module App {

  import opened Types
  import opened Lists
  import opened Constants
  import opened PostJobModal

  // ---------------------------------------------------------------------------
  // The resume-scoring adapter, seen from the container

  /** What the scoring adapter returns: the parsed JSON object, any of whose
      properties may be missing. */
  datatype Analysis = Analysis(score: Option<int>, feedback: Option<string>, missingSkills: Option<seq<string>>)

  /** The adapter's answer when the service call or its parsing fails. */
  const AnalysisUnavailable := Analysis(Some(50), Some("Analysis unavailable."), Some([]))

  /** The adapter's answer when the service replies with empty text, which is
      parsed as `{}`: no property is present. */
  const EmptyAnalysis := Analysis(None, None, None)

  /** The stand-in resume every application is scored with. */
  const MockResume := "Experienced software engineer with skills in React and Node.js. Worked at GlobalTech for 3 years."

  // ---------------------------------------------------------------------------
  // Lookups

  /** ECMAScript `a || b` on an optional string: the fallback replaces both a
      missing value and the empty string. */
  function OrElse(v: Option<string>, fallback: string): (r: string)
    ensures r == fallback || (v.Some? && r == v.value && r != "")
    ensures v.Some? && v.value != "" ==> r == v.value
  {
    if v.Some? && v.value != "" then v.value else fallback
  }

  /** `user?.companyId`. */
  function UserCompanyId(user: Option<User>): Option<string> {
    if user.Some? then user.value.companyId else None
  }

  /** `user?.id`. */
  function UserId(user: Option<User>): Option<string> {
    if user.Some? then Some(user.value.id) else None
  }

  /** `companies.find(c => c.id === key)`, where a missing key matches nothing. */
  function CompanyWithId(companies: seq<Company>, key: Option<string>): (r: Option<Company>)
    ensures r.None? <==> key.None? || forall i :: 0 <= i < |companies| ==> companies[i].id != key.value
    ensures r.Some? ==> r.value in companies && r.value.id == key.value
    ensures key.Some? ==> forall i :: (0 <= i < |companies| && companies[i].id == key.value
      && (forall k :: 0 <= k < i ==> companies[k].id != key.value)) ==> r == Some(companies[i])
  {
    if key.None? then None else Find(companies, (c: Company) => c.id == key.value)
  }

  /** `companies.find(...)?.name`. */
  function NameOf(c: Option<Company>): Option<string> {
    if c.Some? then Some(c.value.name) else None
  }

  /** `jobs.find(j => j.id === id)`. */
  function JobWithId(jobs: seq<Job>, id: string): (r: Option<Job>)
    ensures r.None? <==> forall i :: 0 <= i < |jobs| ==> jobs[i].id != id
    ensures r.Some? ==> r.value in jobs && r.value.id == id
    ensures forall i :: (0 <= i < |jobs| && jobs[i].id == id
      && (forall k :: 0 <= k < i ==> jobs[k].id != id)) ==> r == Some(jobs[i])
  {
    Find(jobs, (j: Job) => j.id == id)
  }

  /** Whether the job an application points at, looked up in the current job
      list, was posted by `employerId`. A job that is gone belongs to nobody. */
  predicate JobOwnedBy(jobs: seq<Job>, jobId: string, employerId: string) {
    var j := JobWithId(jobs, jobId);
    j.Some? && j.value.employerId == employerId
  }

  // ---------------------------------------------------------------------------
  // Pure transitions

  /** The application recorded when `seeker` applies to `job`. */
  function NewApplication(job: Job, seeker: User, analysis: Analysis, newId: string, today: string)
    : (a: Application)
    ensures a.id == newId && a.jobId == job.id && a.appliedAt == today && a.status == Pending
    ensures a.seekerId == seeker.id && a.seekerName == seeker.name && a.seekerEmail == seeker.email
    ensures a.aiScore == analysis.score && a.aiFeedback == analysis.feedback
  {
    Application(newId, job.id, seeker.id, seeker.name, seeker.email, Pending, today,
                analysis.score, analysis.feedback)
  }

  /** The job recorded for a posted draft. The draft's fields are kept, except
      that the id, company id, company name, date and employer id are always
      replaced: the company id and employer id come from the current user
      (empty when absent), the date is `today`, and the company name is the
      name of the first company whose id is the user's company id, or
      "Unknown" when there is none or its name is empty. Fields the draft does
      not carry stay absent. */
  function PostedJob(draft: JobDraft, user: Option<User>, companies: seq<Company>,
                     newId: string, today: string): (j: Job)
    ensures j.id == newId && j.postedAt == today
    ensures j.title == draft.title && j.location == draft.location && j.kind == draft.kind
    ensures j.salary == draft.salary && j.category == draft.category
    ensures j.description == draft.description && j.requirements == draft.requirements
    ensures j.experienceLevel.None? && j.isFeatured.None?
    ensures j.employerId == (if user.Some? then user.value.id else "")
    ensures j.companyId == (if UserCompanyId(user).Some? then UserCompanyId(user).value else "")
    ensures (UserCompanyId(user).None? || forall i :: 0 <= i < |companies| ==> companies[i].id != j.companyId)
      ==> j.companyName == "Unknown"
    ensures UserCompanyId(user).Some? ==>
      forall i :: (0 <= i < |companies| && companies[i].id == j.companyId
                   && (forall k :: 0 <= k < i ==> companies[k].id != j.companyId))
        ==> j.companyName == (if companies[i].name == "" then "Unknown" else companies[i].name)
    ensures j.companyName != "Unknown" ==>
      exists c :: c in companies && c.id == j.companyId && c.name == j.companyName
  {
    var company := CompanyWithId(companies, UserCompanyId(user));
    Job(newId, draft.title, OrElse(UserCompanyId(user), ""), OrElse(NameOf(company), "Unknown"),
        draft.location, draft.kind, draft.salary, draft.description, today,
        OrElse(UserId(user), ""), draft.category, draft.requirements, None, None)
  }

  function Verified(c: Company, id: string): Company {
    if c.id == id then c.(isVerified := true) else c
  }

  /** The company list after an admin verifies `id`: every company with that
      id is marked verified, every other one is kept as it was, in place. */
  function VerifyCompanies(companies: seq<Company>, id: string): (r: seq<Company>)
    ensures |r| == |companies|
    ensures forall i :: 0 <= i < |r| ==>
      if companies[i].id == id then r[i] == companies[i].(isVerified := true) else r[i] == companies[i]
  {
    if companies == [] then []
    else [Verified(companies[0], id)] + VerifyCompanies(companies[1..], id)
  }

  /** The job list after an admin removes `id`: every job with that id goes,
      the others stay in their order. Applications are not touched. */
  function WithoutJob(jobs: seq<Job>, id: string): (r: seq<Job>)
    ensures forall i :: 0 <= i < |r| ==> r[i] in jobs && r[i].id != id
    ensures forall i :: 0 <= i < |jobs| && jobs[i].id != id ==> jobs[i] in r
  {
    Filter(jobs, (j: Job) => j.id != id)
  }

  /** The demo user the role switch moves to: seeker, then employer, then
      admin, then back to the seeker; from no user (or any other) the seeker. */
  function NextUser(user: Option<User>): (u: User)
    ensures u in SeededUsers
    ensures user.Some? && user.value.role == Seeker ==> u == MockUserEmployer
    ensures user.Some? && user.value.role == Employer ==> u == MockUserAdmin
    ensures user.None? || user.value.role == Admin ==> u == MockUserSeeker
  {
    if user.Some? && user.value.role == Seeker then MockUserEmployer
    else if user.Some? && user.value.role == Employer then MockUserAdmin
    else MockUserSeeker
  }

  // ---------------------------------------------------------------------------
  // Role-scoped views

  /** The seeker's applications: exactly those they submitted, newest first. */
  function SeekerApplications(applications: seq<Application>, seekerId: string): (r: seq<Application>)
    ensures |r| <= |applications|
    ensures forall i :: 0 <= i < |r| ==> r[i] in applications && r[i].seekerId == seekerId
    ensures forall i :: 0 <= i < |applications| && applications[i].seekerId == seekerId ==> applications[i] in r
  {
    Filter(applications, (a: Application) => a.seekerId == seekerId)
  }

  /** The employer's listings: exactly the jobs they posted. */
  function EmployerJobs(jobs: seq<Job>, employerId: string): (r: seq<Job>)
    ensures |r| <= |jobs|
    ensures forall i :: 0 <= i < |r| ==> r[i] in jobs && r[i].employerId == employerId
    ensures forall i :: 0 <= i < |jobs| && jobs[i].employerId == employerId ==> jobs[i] in r
  {
    Filter(jobs, (j: Job) => j.employerId == employerId)
  }

  /** The employer's applicants: the applications whose job, looked up in the
      current job list, the employer posted. */
  function EmployerApplications(jobs: seq<Job>, applications: seq<Application>, employerId: string)
    : (r: seq<Application>)
    ensures |r| <= |applications|
    ensures forall i :: 0 <= i < |r| ==> r[i] in applications && JobOwnedBy(jobs, r[i].jobId, employerId)
    ensures forall i :: 0 <= i < |applications| ==>
      (JobOwnedBy(jobs, applications[i].jobId, employerId) ==> applications[i] in r)
  {
    Filter(applications, (a: Application) => JobOwnedBy(jobs, a.jobId, employerId))
  }

  /** The applicant count shown beside each of an employer's listings: at
      most the number of applications, zero exactly when none is for the job,
      and all of them when every one is. */
  function ApplicationCount(applications: seq<Application>, jobId: string): (n: nat)
    ensures n <= |applications|
    ensures n == 0 <==> forall i :: 0 <= i < |applications| ==> applications[i].jobId != jobId
    ensures (forall i :: 0 <= i < |applications| ==> applications[i].jobId == jobId) ==> n == |applications|
  {
    var p := (a: Application) => a.jobId == jobId;
    FilterLengthFacts(applications, p);
    |Filter(applications, p)|
  }

  /** The admin's "Verified" counter: zero exactly when no company is
      verified, the whole list exactly when all are. */
  function VerifiedCount(companies: seq<Company>): (n: nat)
    ensures n <= |companies|
    ensures n == 0 <==> forall i :: 0 <= i < |companies| ==> !companies[i].isVerified
    ensures (forall i :: 0 <= i < |companies| ==> companies[i].isVerified) ==> n == |companies|
  {
    var p := (c: Company) => c.isVerified;
    FilterLengthFacts(companies, p);
    |Filter(companies, p)|
  }

  /** The admin's "Pending" counter: zero exactly when every company is
      verified, the whole list when none is. */
  function PendingCount(companies: seq<Company>): (n: nat)
    ensures n <= |companies|
    ensures n == 0 <==> forall i :: 0 <= i < |companies| ==> companies[i].isVerified
    ensures (forall i :: 0 <= i < |companies| ==> !companies[i].isVerified) ==> n == |companies|
  {
    var p := (c: Company) => !c.isVerified;
    FilterLengthFacts(companies, p);
    |Filter(companies, p)|
  }

  /** A job card's Apply button is disabled when the seeker's applications
      have one for that job (`some`, which is `find` succeeding), and always
      for an employer; a seeker without an application for it may apply. */
  function ApplyDisabled(user: Option<User>, seekerApplications: seq<Application>, job: Job): (r: bool)
    ensures r <==> Find(seekerApplications, (a: Application) => a.jobId == job.id).Some?
                   || (user.Some? && user.value.role == Employer)
    ensures (user.Some? && user.value.role == Seeker
             && forall i :: 0 <= i < |seekerApplications| ==> seekerApplications[i].jobId != job.id) ==> !r
  {
    (exists i :: 0 <= i < |seekerApplications| && seekerApplications[i].jobId == job.id)
    || (user.Some? && user.value.role == Employer)
  }

  /** The company name the post-job form is given: the name of the first
      company whose id is the user's company id when that name is non-empty,
      otherwise "Your Company". */
  function CompanyLabel(companies: seq<Company>, user: User): (r: string)
    ensures (user.companyId.None? || forall i :: 0 <= i < |companies| ==> companies[i].id != user.companyId.value)
      ==> r == "Your Company"
    ensures user.companyId.Some? ==>
      forall i :: (0 <= i < |companies| && companies[i].id == user.companyId.value
                   && (forall k :: 0 <= k < i ==> companies[k].id != user.companyId.value))
        ==> r == (if companies[i].name == "" then "Your Company" else companies[i].name)
    ensures r != "Your Company" ==>
      user.companyId.Some? && exists c :: c in companies && c.id == user.companyId.value && c.name == r
  {
    OrElse(NameOf(CompanyWithId(companies, user.companyId)), "Your Company")
  }

  /** What the page shows. */
  datatype Screen =
    | SeekerScreen(seeker: User, jobs: seq<Job>, applications: seq<Application>)
    | EmployerScreen(jobs: seq<Job>, applications: seq<Application>, modalOpen: bool,
                     employerId: string, company: string)
    | AdminScreen(users: seq<User>, jobs: seq<Job>, companies: seq<Company>)
    | WelcomeScreen

  /** The dashboard for the current user's role, fed with that role's views. */
  function Render(user: Option<User>, jobs: seq<Job>, applications: seq<Application>,
                  companies: seq<Company>, modalOpen: bool): (s: Screen)
    ensures s.WelcomeScreen? <==> user.None?
    ensures s.SeekerScreen? ==>
      (s.seeker == user.value && s.jobs == jobs
       && s.applications == SeekerApplications(applications, user.value.id))
    ensures s.EmployerScreen? ==>
      (s.jobs == EmployerJobs(jobs, user.value.id)
       && s.applications == EmployerApplications(jobs, applications, user.value.id)
       && s.modalOpen == modalOpen && s.employerId == user.value.id
       && s.company == CompanyLabel(companies, user.value))
    ensures s.AdminScreen? ==>
      s.users == [MockUserSeeker, MockUserEmployer] && s.jobs == jobs && s.companies == companies
    ensures user.Some? ==>
      ((s.SeekerScreen? <==> user.value.role == Seeker)
       && (s.EmployerScreen? <==> user.value.role == Employer)
       && (s.AdminScreen? <==> user.value.role == Admin))
  {
    if user.None? then WelcomeScreen
    else
      var u := user.value;
      match u.role
      case Seeker => SeekerScreen(u, jobs, SeekerApplications(applications, u.id))
      case Employer => EmployerScreen(EmployerJobs(jobs, u.id), EmployerApplications(jobs, applications, u.id),
                                      modalOpen, u.id, CompanyLabel(companies, u))
      case Admin => AdminScreen([MockUserSeeker, MockUserEmployer], jobs, companies)
  }

  // ---------------------------------------------------------------------------
  // Properties of the transitions

  /** Verifying never un-verifies and touches no company with another id. */
  lemma VerifyMonotone(companies: seq<Company>, id: string)
    ensures forall i :: 0 <= i < |companies| ==>
      VerifyCompanies(companies, id)[i].isVerified == (companies[i].isVerified || companies[i].id == id)
  {
  }

  /** Verifying the same id twice is verifying it once. */
  lemma VerifyIdempotent(companies: seq<Company>, id: string)
    ensures VerifyCompanies(VerifyCompanies(companies, id), id) == VerifyCompanies(companies, id)
  {
  }

  /** Verifying an id no company has changes nothing. */
  lemma VerifyUnknownIsNoOp(companies: seq<Company>, id: string)
    requires forall i :: 0 <= i < |companies| ==> companies[i].id != id
    ensures VerifyCompanies(companies, id) == companies
  {
  }

  /** Verifying never lowers the admin's verified counter. */
  lemma {:induction false} VerifyCountMonotone(companies: seq<Company>, id: string)
    ensures VerifiedCount(VerifyCompanies(companies, id)) >= VerifiedCount(companies)
  {
    if companies != [] {
      var c := companies[0];
      var rest := companies[1..];
      VerifyCountMonotone(rest, id);
      assert companies == [c] + rest;
      assert VerifyCompanies(companies, id) == [Verified(c, id)] + VerifyCompanies(rest, id);
      FilterCons(c, rest, (c: Company) => c.isVerified);
      FilterCons(Verified(c, id), VerifyCompanies(rest, id), (c: Company) => c.isVerified);
    }
  }

  /** Every company is counted exactly once, as verified or as pending. */
  lemma {:induction false} CountsPartition(companies: seq<Company>)
    ensures VerifiedCount(companies) + PendingCount(companies) == |companies|
  {
    if companies != [] {
      CountsPartition(companies[1..]);
      assert companies == [companies[0]] + companies[1..];
      FilterCons(companies[0], companies[1..], (c: Company) => c.isVerified);
      FilterCons(companies[0], companies[1..], (c: Company) => !c.isVerified);
    }
  }

  /** After a verification no company with that id is pending. */
  lemma VerifiedLeavesNonePending(companies: seq<Company>, id: string)
    ensures forall c :: c in Filter(VerifyCompanies(companies, id), (c: Company) => !c.isVerified) ==> c.id != id
  {
  }

  /** Removing a job leaves no job with that id, so every application for it
      is seen by no employer any more, though it is still in the list. */
  lemma ModeratedJobOrphansApplications(jobs: seq<Job>, applications: seq<Application>,
                                        id: string, employerId: string)
    ensures JobWithId(WithoutJob(jobs, id), id).None?
    ensures forall i :: 0 <= i < |applications| && applications[i].jobId == id ==>
      applications[i] !in EmployerApplications(WithoutJob(jobs, id), applications, employerId)
  {
  }

  /** Removing a job keeps the other jobs in their order: removal distributes
      over any split of the list. */
  lemma ModerationKeepsOrder(front: seq<Job>, back: seq<Job>, id: string)
    ensures WithoutJob(front + back, id) == WithoutJob(front, id) + WithoutJob(back, id)
  {
    FilterAppend(front, back, (j: Job) => j.id != id);
  }

  /** A job list without the id is left as it is by removal. */
  lemma ModerateUnknownIsNoOp(jobs: seq<Job>, id: string)
    requires forall i :: 0 <= i < |jobs| ==> jobs[i].id != id
    ensures WithoutJob(jobs, id) == jobs
  {
    FilterKeepsAll(jobs, (j: Job) => j.id != id);
  }

  /** The role switch has period three once it has left an arbitrary start. */
  lemma SwitchRoleCycle(user: Option<User>)
    ensures NextUser(Some(NextUser(Some(NextUser(Some(MockUserSeeker)))))) == MockUserSeeker
    ensures var u := NextUser(user);
      NextUser(Some(NextUser(Some(NextUser(Some(u)))))) == u
  {
  }

  /** A new application is the newest in its seeker's view and changes no
      other seeker's view. */
  lemma ApplyShowsInSeekerView(a: Application, applications: seq<Application>, seekerId: string)
    ensures SeekerApplications([a] + applications, seekerId)
      == (if a.seekerId == seekerId then [a] else []) + SeekerApplications(applications, seekerId)
  {
  }

  /** A new application goes to the front of the view of the employer who owns
      its job, and to no other employer's view. */
  lemma ApplyShowsInEmployerView(jobs: seq<Job>, a: Application, applications: seq<Application>,
                                 employerId: string)
    ensures EmployerApplications(jobs, [a] + applications, employerId)
      == (if JobOwnedBy(jobs, a.jobId, employerId) then [a] else [])
         + EmployerApplications(jobs, applications, employerId)
  {
  }

  /** A posted job heads its poster's listing and changes no other
      employer's listing; the listing keeps the newest-first order. */
  lemma PostShowsInEmployerJobs(j: Job, jobs: seq<Job>, employerId: string)
    ensures EmployerJobs([j] + jobs, employerId)
      == (if j.employerId == employerId then [j] else []) + EmployerJobs(jobs, employerId)
  {
  }

  /** The verified counter counts one for each verified company. */
  lemma VerifiedCountCons(c: Company, companies: seq<Company>)
    ensures VerifiedCount([c] + companies) == VerifiedCount(companies) + (if c.isVerified then 1 else 0)
  {
    FilterCons(c, companies, (c: Company) => c.isVerified);
  }

  /** The pending counter counts one for each unverified company. */
  lemma PendingCountCons(c: Company, companies: seq<Company>)
    ensures PendingCount([c] + companies) == PendingCount(companies) + (if c.isVerified then 0 else 1)
  {
    FilterCons(c, companies, (c: Company) => !c.isVerified);
  }

  /** Applying to a job raises that job's applicant count by one and leaves
      every other job's count alone. */
  lemma ApplyRaisesCount(a: Application, applications: seq<Application>, jobId: string)
    ensures ApplicationCount([a] + applications, jobId)
      == ApplicationCount(applications, jobId) + (if a.jobId == jobId then 1 else 0)
  {
  }

  /** Once a seeker has applied, the job's Apply button is disabled for them. */
  lemma AppliedDisablesButton(job: Job, seeker: User, analysis: Analysis, newId: string, today: string,
                              applications: seq<Application>)
    ensures ApplyDisabled(Some(seeker),
      SeekerApplications([NewApplication(job, seeker, analysis, newId, today)] + applications, seeker.id), job)
  {
  }

  // ---------------------------------------------------------------------------
  // Facts about the seed data that need the lookups

  /** Each seeded job's cached company name is the name of the seeded company
      its company id points at. */
  lemma SeedJobsNameTheirCompany()
    ensures forall i :: 0 <= i < |InitialJobs| ==>
      NameOf(CompanyWithId(MockCompanies, Some(InitialJobs[i].companyId))) == Some(InitialJobs[i].companyName)
    ensures InitialJobs[0].companyName == "TechFlow Systems" && InitialJobs[1].companyName == "CreativePulse"
  {
    assert CompanyWithId(MockCompanies, Some("c1")) == Some(TechFlow);
    assert MockCompanies[0].id != "c2" && MockCompanies[1].id == "c2";
    assert CompanyWithId(MockCompanies, Some("c2")) == Some(CreativePulse);
  }

  /** When the user's company is listed under a non-empty name, the posted
      job's company name is the label the form showed; otherwise the form
      showed "Your Company" and the job is recorded as "Unknown". */
  lemma PostedNameMatchesLabel(draft: JobDraft, user: User, companies: seq<Company>, newId: string, today: string)
    ensures var shown := CompanyLabel(companies, user);
      PostedJob(draft, Some(user), companies, newId, today).companyName
        == (if shown == "Your Company" && NameOf(CompanyWithId(companies, user.companyId)) != Some("Your Company")
            then "Unknown" else shown)
  {
  }

  /** A job posted by the seeded employer is labelled with TechFlow Systems,
      not the "Unknown" fallback. */
  lemma SeedEmployerPostsAsTechFlow(draft: JobDraft, newId: string, today: string)
    ensures PostedJob(draft, Some(MockUserEmployer), MockCompanies, newId, today).companyName == "TechFlow Systems"
    ensures PostedJob(draft, Some(MockUserEmployer), MockCompanies, newId, today).companyId == "c1"
    ensures PostedJob(draft, Some(MockUserEmployer), MockCompanies, newId, today).employerId == "e1"
    ensures CompanyLabel(MockCompanies, MockUserEmployer) == "TechFlow Systems"
  {
  }

  // ---------------------------------------------------------------------------
  // The state container

  /** The changes a company list may undergo: same companies in the same
      places, with verification only ever switched on. */
  ghost predicate CompaniesEvolve(before: seq<Company>, after: seq<Company>) {
    |after| == |before| &&
    forall i :: 0 <= i < |before| ==>
      after[i].(isVerified := before[i].isVerified) == before[i] &&
      (before[i].isVerified ==> after[i].isVerified)
  }

  /** Applications are only ever added at the front, never removed or changed. */
  ghost predicate ApplicationsExtend(before: seq<Application>, after: seq<Application>) {
    |before| <= |after| && after[|after| - |before|..] == before
  }

  class AppState {
    var user: Option<User>
    var jobs: seq<Job>
    var applications: seq<Application>
    var companies: seq<Company>
    var isPostModalOpen: bool

    /** The session starts as the seeded seeker, over the seeded jobs and
        companies, with no applications and the post dialog closed. */
    constructor ()
      ensures user == Some(MockUserSeeker) && jobs == InitialJobs && applications == []
      ensures companies == MockCompanies && !isPostModalOpen
    {
      user := Some(MockUserSeeker);
      jobs := InitialJobs;
      applications := [];
      companies := MockCompanies;
      isPostModalOpen := false;
    }

    /** The page for the current state. */
    function View(): Screen
      reads this
    {
      Render(user, jobs, applications, companies, isPostModalOpen)
    }

    /** Apply to `job`. Without a user nothing happens. Otherwise the job's
        description is scored against the stand-in resume by `score` (the
        external adapter, which answers `AnalysisUnavailable` on failure and
        `EmptyAnalysis` on an empty reply), and one Pending application
        carrying the user's details and whatever score and feedback the
        answer holds is put in front of the existing ones. `newId` and `today` stand for the
        random id and the current date. */
    method HandleApply(job: Job, score: (string, string) -> Analysis, newId: string, today: string)
      modifies this
      ensures old(user).None? ==> applications == old(applications)
      ensures old(user).Some? ==>
        applications == [NewApplication(job, old(user).value, score(MockResume, job.description), newId, today)]
                        + old(applications)
      ensures ApplicationsExtend(old(applications), applications)
      ensures user == old(user) && jobs == old(jobs) && companies == old(companies)
      ensures isPostModalOpen == old(isPostModalOpen)
    {
      if user.None? {
        return;
      }
      var analysis := score(MockResume, job.description);
      var app := NewApplication(job, user.value, analysis, newId, today);
      applications := [app] + applications;
      assert applications[|applications| - |old(applications)|..] == old(applications);
    }

    /** Post a draft: one job, built by `PostedJob` from the current user and
        company list, is put in front of the existing ones. */
    method HandlePostJob(draft: JobDraft, newId: string, today: string)
      modifies this
      ensures jobs == [PostedJob(draft, old(user), old(companies), newId, today)] + old(jobs)
      ensures user == old(user) && applications == old(applications) && companies == old(companies)
      ensures isPostModalOpen == old(isPostModalOpen)
    {
      jobs := [PostedJob(draft, user, companies, newId, today)] + jobs;
    }

    /** Verify every company with id `id`. */
    method HandleVerifyCompany(id: string)
      modifies this
      ensures companies == VerifyCompanies(old(companies), id)
      ensures CompaniesEvolve(old(companies), companies)
      ensures user == old(user) && jobs == old(jobs) && applications == old(applications)
      ensures isPostModalOpen == old(isPostModalOpen)
    {
      companies := VerifyCompanies(companies, id);
    }

    /** Remove every job with id `id`; its applications stay. */
    method HandleModerateJob(id: string)
      modifies this
      ensures jobs == WithoutJob(old(jobs), id)
      ensures user == old(user) && applications == old(applications) && companies == old(companies)
      ensures isPostModalOpen == old(isPostModalOpen)
    {
      jobs := WithoutJob(jobs, id);
    }

    /** Move to the next demo account. */
    method SwitchRole()
      modifies this
      ensures user == Some(NextUser(old(user)))
      ensures jobs == old(jobs) && applications == old(applications) && companies == old(companies)
      ensures isPostModalOpen == old(isPostModalOpen)
    {
      user := Some(NextUser(user));
    }

    /** The header's logout button. */
    method Logout()
      modifies this
      ensures user == None
      ensures jobs == old(jobs) && applications == old(applications) && companies == old(companies)
      ensures isPostModalOpen == old(isPostModalOpen)
    {
      user := None;
    }

    /** The welcome page's Get Started button. */
    method GetStarted()
      modifies this
      ensures user == Some(MockUserSeeker)
      ensures jobs == old(jobs) && applications == old(applications) && companies == old(companies)
      ensures isPostModalOpen == old(isPostModalOpen)
    {
      user := Some(MockUserSeeker);
    }

    /** The employer dashboard's "post a job" button. */
    method OpenPostModal()
      modifies this
      ensures isPostModalOpen
      ensures user == old(user) && jobs == old(jobs) && applications == old(applications)
      ensures companies == old(companies)
    {
      isPostModalOpen := true;
    }

    /** The dialog's close and cancel buttons. */
    method ClosePostModal()
      modifies this
      ensures !isPostModalOpen
      ensures user == old(user) && jobs == old(jobs) && applications == old(applications)
      ensures companies == old(companies)
    {
      isPostModalOpen := false;
    }

    /** Submitting the open post-job dialog. An incomplete form is not
        submitted and nothing changes. Otherwise the form builds its draft
        from the employer's id and company label, the draft is posted (one
        job in front) and the dialog closes; the form keeps its contents. */
    method SubmitPostJob(modal: Modal, newId: string, today: string)
      requires user.Some? && user.value.role == Employer && isPostModalOpen
      modifies this
      ensures !FormComplete(modal.formData) ==> jobs == old(jobs) && isPostModalOpen
      ensures FormComplete(modal.formData) ==>
        jobs == [PostedJob(BuildDraft(modal.formData, old(user).value.id,
                                      CompanyLabel(old(companies), old(user).value), today),
                           old(user), old(companies), newId, today)] + old(jobs)
        && !isPostModalOpen
      ensures user == old(user) && applications == old(applications) && companies == old(companies)
    {
      if !FormComplete(modal.formData) {
        return;
      }
      var draft := modal.HandleSubmit(user.value.id, CompanyLabel(companies, user.value), today);
      HandlePostJob(draft, newId, today);
      ClosePostModal();
    }
  }

  // ---------------------------------------------------------------------------
  // Scenarios

  /** The seeded seeker applies to job "1": seeded employer "e1" sees exactly
      that application, and "e2", who owns job "2", sees none. */
  method ScenarioSeekerApplies(score: (string, string) -> Analysis, newId: string, today: string)
  {
    var app := new AppState();
    app.HandleApply(FrontendJob, score, newId, today);
    var a := app.applications[0];
    assert app.applications == [a];
    assert a.jobId == "1" && a.seekerId == "s1" && a.status == Pending;
    assert JobWithId(InitialJobs, "1") == Some(FrontendJob);
    assert JobOwnedBy(InitialJobs, "1", "e1");
    assert !JobOwnedBy(InitialJobs, "1", "e2");
    FilterCons(a, [], (x: Application) => JobOwnedBy(InitialJobs, x.jobId, "e1"));
    FilterCons(a, [], (x: Application) => JobOwnedBy(InitialJobs, x.jobId, "e2"));
    assert EmployerApplications(app.jobs, app.applications, "e1") == [a];
    assert EmployerApplications(app.jobs, app.applications, "e2") == [];
    assert app.View() == SeekerScreen(MockUserSeeker, InitialJobs, [a]);
    app.SwitchRole();
    assert app.View().EmployerScreen? && app.View().applications == [a];
    assert app.View().company == "TechFlow Systems" by {
      assert CompanyWithId(MockCompanies, Some("c1")) == Some(TechFlow);
    }
  }

  /** When scoring fails the application still carries the fallback score and
      feedback and is visible to both the seeker and the job's employer. */
  method ScenarioScoringFails(newId: string, today: string)
  {
    var app := new AppState();
    app.HandleApply(FrontendJob, (r: string, d: string) => AnalysisUnavailable, newId, today);
    var a := app.applications[0];
    assert a.aiScore == Some(50) && a.aiFeedback == Some("Analysis unavailable.");
    assert JobOwnedBy(InitialJobs, "1", "e1") by {
      assert JobWithId(InitialJobs, "1") == Some(FrontendJob);
    }
    assert a in SeekerApplications(app.applications, "s1");
    assert a in EmployerApplications(app.jobs, app.applications, "e1");
  }

  /** When the scorer replies with empty text the application is still
      recorded and shown, but without a score or feedback. */
  method ScenarioEmptyAnswer(newId: string, today: string)
  {
    var app := new AppState();
    app.HandleApply(FrontendJob, (r: string, d: string) => EmptyAnalysis, newId, today);
    var a := app.applications[0];
    assert a.aiScore.None? && a.aiFeedback.None?;
    assert a.status == Pending && a.seekerId == "s1";
    assert a in SeekerApplications(app.applications, "s1");
  }
}
