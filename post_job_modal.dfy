/** The employer's "Post a New Role" form: its field record, the AI-assist
    handler with its busy flag, and the job draft it submits. */
module PostJobModal {

  import opened Types
  import opened Text

  /** The form's fields. `requirements` is the raw comma-separated skills text. */
  datatype FormData = FormData(
    title: string,
    location: string,
    kind: JobType,
    salary: string,
    category: string,
    requirements: string,
    description: string)

  /** What the form shows when it is first mounted. */
  const InitialForm := FormData("", "Remote", FullTime, "", "Engineering", "", "")

  /** One keystroke or selection in one of the form's inputs. */
  datatype FormEdit =
    | EditTitle(title: string)
    | EditLocation(location: string)
    | EditKind(kind: JobType)
    | EditSalary(salary: string)
    | EditCategory(category: string)
    | EditRequirements(requirements: string)
    | EditDescription(description: string)

  /** The form after one edit: the edited field holds the new value and every
      other field keeps its old one. */
  function ApplyEdit(f: FormData, e: FormEdit): (r: FormData)
    ensures r.title == (if e.EditTitle? then e.title else f.title)
    ensures r.location == (if e.EditLocation? then e.location else f.location)
    ensures r.kind == (if e.EditKind? then e.kind else f.kind)
    ensures r.salary == (if e.EditSalary? then e.salary else f.salary)
    ensures r.category == (if e.EditCategory? then e.category else f.category)
    ensures r.requirements == (if e.EditRequirements? then e.requirements else f.requirements)
    ensures r.description == (if e.EditDescription? then e.description else f.description)
  {
    match e
    case EditTitle(v) => f.(title := v)
    case EditLocation(v) => f.(location := v)
    case EditKind(v) => f.(kind := v)
    case EditSalary(v) => f.(salary := v)
    case EditCategory(v) => f.(category := v)
    case EditRequirements(v) => f.(requirements := v)
    case EditDescription(v) => f.(description := v)
  }

  /** The skills list: the text split at every comma, each piece trimmed.
      There is one piece more than there are commas, so empty text gives one
      empty skill; no piece has whitespace at either end or contains a comma. */
  function ParseSkills(text: string): (r: seq<string>)
    ensures |r| == multiset(text)[','] + 1
    ensures forall k :: 0 <= k < |r| ==> Trimmed(r[k]) && ',' !in r[k]
    ensures forall k :: 0 <= k < |r| ==> r[k] == Trim(Split(text, ',')[k])
  {
    var pieces := Split(text, ',');
    seq(|pieces|, k requires 0 <= k < |pieces| => Trim(pieces[k]))
  }

  /** Empty skills text yields exactly one empty skill. */
  lemma ParseSkillsEmpty()
    ensures ParseSkills("") == [""]
  {
  }

  /** When no comma-separated piece has surrounding whitespace, the skills are
      exactly the pieces and joining them with commas gives the text back. */
  lemma ParseSkillsOfTidyText(text: string)
    requires forall k :: 0 <= k < |Split(text, ',')| ==> Trimmed(Split(text, ',')[k])
    ensures ParseSkills(text) == Split(text, ',')
    ensures Join(ParseSkills(text), ',') == text
  {
    var pieces := Split(text, ',');
    var r := ParseSkills(text);
    forall k | 0 <= k < |pieces| ensures r[k] == pieces[k] {
      TrimmedIsFixed(pieces[k]);
    }
    JoinSplit(text, ',');
  }

  lemma TrimmedIsFixed(s: string)
    requires Trimmed(s)
    ensures Trim(s) == s
  {
  }

  /** Normalising is stable: writing the parsed skills back as comma-separated
      text and parsing again gives the same skills. */
  lemma ParseSkillsStable(text: string)
    ensures ParseSkills(Join(ParseSkills(text), ',')) == ParseSkills(text)
  {
    var r := ParseSkills(text);
    SplitJoin(r, ',');
    assert Split(Join(r, ','), ',') == r;
    ParseSkillsOfTidyText(Join(r, ','));
  }

  /** The form's inputs marked `required` (title, location, salary and
      description) are non-empty; without that the browser does not submit. */
  predicate FormComplete(f: FormData) {
    f.title != "" && f.location != "" && f.salary != "" && f.description != ""
  }

  /** The untouched form cannot be submitted; the type, category and skills
      inputs never decide whether it can; emptying a required input makes it
      unsubmittable, and an edit can only complete a form by filling in a
      required input. */
  lemma FormCompleteOnlyRequired(f: FormData, e: FormEdit)
    ensures !FormComplete(InitialForm)
    ensures e.EditKind? || e.EditCategory? || e.EditRequirements? ==>
      FormComplete(ApplyEdit(f, e)) == FormComplete(f)
    ensures (e.EditTitle? && e.title == "") || (e.EditLocation? && e.location == "")
         || (e.EditSalary? && e.salary == "") || (e.EditDescription? && e.description == "")
      ==> !FormComplete(ApplyEdit(f, e))
    ensures FormComplete(ApplyEdit(f, e)) && !FormComplete(f) ==>
      e.EditTitle? || e.EditLocation? || e.EditSalary? || e.EditDescription?
  {
  }

  /** The `Partial<Job>` the form hands to its `onPost` callback. */
  datatype JobDraft = JobDraft(
    title: string,
    location: string,
    kind: JobType,
    salary: string,
    category: string,
    requirements: seq<string>,
    description: string,
    employerId: string,
    companyName: string,
    postedAt: string)

  /** The submitted draft: the form's own fields unchanged, the skills text
      parsed into a list, and the employer id, company name and date supplied
      by the caller. */
  function BuildDraft(f: FormData, employerId: string, company: string, today: string): (d: JobDraft)
    ensures d.title == f.title && d.location == f.location && d.kind == f.kind
    ensures d.salary == f.salary && d.category == f.category && d.description == f.description
    ensures d.requirements == ParseSkills(f.requirements)
    ensures d.employerId == employerId && d.companyName == company && d.postedAt == today
  {
    JobDraft(f.title, f.location, f.kind, f.salary, f.category,
             ParseSkills(f.requirements), f.description, employerId, company, today)
  }

  /** The arguments of one description-generation request. */
  datatype DescriptionRequest = DescriptionRequest(title: string, company: string, requirements: seq<string>)

  /** The form component's state. It lives as long as the component stays
      mounted, so closing the dialog keeps what was typed. */
  class Modal {
    var formData: FormData
    var isGenerating: bool

    constructor ()
      ensures formData == InitialForm && !isGenerating
    {
      formData := InitialForm;
      isGenerating := false;
    }

    /** One of the inputs' change handlers. */
    method Edit(e: FormEdit)
      modifies this
      ensures formData == ApplyEdit(old(formData), e)
      ensures isGenerating == old(isGenerating)
    {
      formData := ApplyEdit(formData, e);
    }

    /** The part of the AI-assist handler before the generator is awaited.
        Without a title nothing changes and no request is made; otherwise the
        busy flag goes up and the generator is asked with the title, the
        company and the skills parsed exactly as a submit would parse them. */
    method StartAiAssist(company: string) returns (request: Option<DescriptionRequest>)
      modifies this
      ensures formData == old(formData)
      ensures old(formData).title == "" ==> request == None && isGenerating == old(isGenerating)
      ensures old(formData).title != "" ==>
        request == Some(DescriptionRequest(formData.title, company, ParseSkills(formData.requirements)))
        && isGenerating
    {
      if formData.title == "" {
        request := None;
      } else {
        isGenerating := true;
        request := Some(DescriptionRequest(formData.title, company, ParseSkills(formData.requirements)));
      }
    }

    /** The part after the generator answered: only the description is
        replaced (edits made meanwhile to other fields stay) and the busy flag
        goes down. */
    method FinishAiAssist(generated: string)
      modifies this
      ensures formData == old(formData).(description := generated)
      ensures !isGenerating
    {
      formData := formData.(description := generated);
      isGenerating := false;
    }

    /** The whole AI-assist handler with nothing happening during the await;
        `generate` stands for the external description generator. */
    method HandleAiAssist(company: string, generate: (string, string, seq<string>) -> string)
      modifies this
      ensures old(formData).title == "" ==> formData == old(formData) && isGenerating == old(isGenerating)
      ensures old(formData).title != "" ==>
        formData == old(formData).(description := generate(old(formData).title, company,
                                                            ParseSkills(old(formData).requirements)))
        && !isGenerating
    {
      var request := StartAiAssist(company);
      if request.Some? {
        var generated := generate(request.value.title, request.value.company, request.value.requirements);
        FinishAiAssist(generated);
      }
    }

    /** The submit handler's draft; the form itself is left as it is. */
    method HandleSubmit(employerId: string, company: string, today: string) returns (draft: JobDraft)
      ensures draft == BuildDraft(formData, employerId, company, today)
    {
      draft := BuildDraft(formData, employerId, company, today);
    }
  }
}
