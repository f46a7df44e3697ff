/** The fixed demo data the session starts from: two companies, two jobs and
    one user per role. */
module Constants {

  import opened Types

  const TechFlow := Company(
    "c1", "TechFlow Systems", "https://api.dicebear.com/7.x/initials/svg?seed=TF",
    "Leading the future of cloud computing and developer tools.", "Technology",
    true, "https://techflow.example")

  const CreativePulse := Company(
    "c2", "CreativePulse", "https://api.dicebear.com/7.x/initials/svg?seed=CP",
    "A global agency focused on high-end digital experiences.", "Design",
    true, "https://creativepulse.example")

  const MockCompanies: seq<Company> := [TechFlow, CreativePulse]

  const FrontendJob := Job(
    "1", "Senior Frontend Engineer", "c1", "TechFlow Systems", "San Francisco, CA",
    FullTime, "$140k - $180k",
    "Lead our dashboard transformation using React and TypeScript.",
    "2024-05-15", "e1", "Engineering", ["React", "TypeScript", "Tailwind CSS"],
    Some(Senior), Some(true))

  const DesignerJob := Job(
    "2", "Product Designer", "c2", "CreativePulse", "Remote",
    RemoteJob, "$110k - $150k",
    "Create user-centric designs for our mobile and web platforms.",
    "2024-05-18", "e2", "Design", ["Figma", "Prototyping"],
    Some(Mid), Some(false))

  const InitialJobs: seq<Job> := [FrontendJob, DesignerJob]

  const MockUserSeeker := User(
    "s1", "Alex Rivera", "alex@example.com", Seeker,
    Some(["React", "TypeScript", "Node.js"]),
    Some("Frontend enthusiast with 4 years experience."),
    None, Some(["2"]), None)

  const MockUserEmployer := User(
    "e1", "Sarah Connor", "sarah@techflow.com", Employer,
    None, None, Some("c1"), None, None)

  const MockUserAdmin := User(
    "admin1", "Platform Admin", "admin@careerstream.ai", Admin,
    None, None, None, None, None)

  const SeededUsers: seq<User> := [MockUserSeeker, MockUserEmployer, MockUserAdmin]

  /** The two seeded companies have distinct ids and both start verified. */
  lemma SeedCompaniesDistinctAndVerified()
    ensures |MockCompanies| == 2
    ensures MockCompanies[0].id == "c1" && MockCompanies[1].id == "c2"
    ensures MockCompanies[0].id != MockCompanies[1].id
    ensures forall i :: 0 <= i < |MockCompanies| ==> MockCompanies[i].isVerified
  {
  }

  /** The two seeded jobs have distinct ids. */
  lemma SeedJobIdsDistinct()
    ensures |InitialJobs| == 2
    ensures InitialJobs[0].id == "1" && InitialJobs[1].id == "2"
    ensures InitialJobs[0].id != InitialJobs[1].id
  {
  }

  /** The three seeded users have distinct ids and one each of the three roles. */
  lemma SeedUsersOnePerRole()
    ensures forall i, j :: 0 <= i < j < |SeededUsers| ==> SeededUsers[i].id != SeededUsers[j].id
    ensures forall i, j :: 0 <= i < j < |SeededUsers| ==> SeededUsers[i].role != SeededUsers[j].role
    ensures MockUserSeeker.role == Seeker && MockUserEmployer.role == Employer && MockUserAdmin.role == Admin
  {
  }

  /** Job "1" belongs to the seeded employer; job "2" names an employer "e2"
      that no seeded user has as id. */
  lemma SeedEmployerReferences()
    ensures FrontendJob.employerId == MockUserEmployer.id && MockUserEmployer.role == Employer
    ensures forall i :: 0 <= i < |SeededUsers| ==> SeededUsers[i].id != DesignerJob.employerId
  {
  }
}
