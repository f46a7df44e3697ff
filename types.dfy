/** Entity shapes of the job portal: users, companies, jobs and applications.
    Optional (`?`) properties of the TypeScript records become `Option` fields. */
module Types {

  datatype Option<+T> = None | Some(value: T)

  datatype Role = Seeker | Employer | Admin

  datatype JobType = FullTime | PartTime | Contract | RemoteJob

  datatype ExperienceLevel = Junior | Mid | Senior | Lead

  datatype Status = Pending | Reviewed | Shortlisted | Rejected | Hired

  datatype User = User(
    id: string,
    name: string,
    email: string,
    role: Role,
    skills: Option<seq<string>>,
    bio: Option<string>,
    companyId: Option<string>,
    savedJobIds: Option<seq<string>>,
    isVerified: Option<bool>)

  datatype Company = Company(
    id: string,
    name: string,
    logo: string,
    description: string,
    industry: string,
    isVerified: bool,
    website: string)

  /** `experienceLevel` and `isFeatured` are optional here: a job built from the
      post-job form never receives them, although the record type declares the
      first one required. */
  datatype Job = Job(
    id: string,
    title: string,
    companyId: string,
    companyName: string,
    location: string,
    kind: JobType,
    salary: string,
    description: string,
    postedAt: string,
    employerId: string,
    category: string,
    requirements: seq<string>,
    experienceLevel: Option<ExperienceLevel>,
    isFeatured: Option<bool>)

  datatype Application = Application(
    id: string,
    jobId: string,
    seekerId: string,
    seekerName: string,
    seekerEmail: string,
    status: Status,
    appliedAt: string,
    aiScore: Option<int>,
    aiFeedback: Option<string>)
}
