/** The review form: field edits, validation before submitting, and the outcome of
    the submit call. */
module ReviewModal {
  import opened Common
  import opened Text

  datatype ReviewForm = ReviewForm(name: string, rating: int, comment: string, project: string)

  /** The form's initial and reset value; "" stands for a missing `projectId`. */
  function EmptyForm(projectId: string): (f: ReviewForm)
    ensures f.name == "" && f.rating == 0 && f.comment == "" && f.project == projectId
  {
    ReviewForm("", 0, "", projectId)
  }

  const NoRating := "Please select a rating"
  const NoComment := "Please enter a comment"

  /** The checks before submitting, the rating first: `None` when the form may be sent. */
  function Validate(form: ReviewForm): (r: Option<string>)
    ensures form.rating == 0 ==> r == Some(NoRating)
    ensures form.rating != 0 && Trim(form.comment) == "" ==> r == Some(NoComment)
    ensures r.None? <==> form.rating != 0 && Trim(form.comment) != ""
  {
    if form.rating == 0 then Some(NoRating)
    else if Trim(form.comment) == "" then Some(NoComment)
    else None
  }

  /** A comment of blanks only does not count as a comment. */
  lemma BlankCommentRejected(form: ReviewForm)
    requires form.rating != 0
    requires forall k :: 0 <= k < |form.comment| ==> IsWhitespace(form.comment[k])
    ensures Validate(form) == Some(NoComment)
  {
    TrimBlank(form.comment);
  }

  lemma {:induction false} TrimBlank(s: string)
    requires forall k :: 0 <= k < |s| ==> IsWhitespace(s[k])
    ensures Trim(s) == ""
  {
    TrimIsSlice(s);
  }

  /** A rated form whose comment holds a character other than white space may be sent. */
  lemma VisibleCommentAccepted(form: ReviewForm, k: nat)
    requires form.rating != 0
    requires k < |form.comment| && !IsWhitespace(form.comment[k])
    ensures Validate(form) == None
  {
    TrimIsSlice(form.comment);
    var i, j :| IsWindow(form.comment, Trim(form.comment), i, j);
    assert i <= k < j;
    assert Trim(form.comment)[k - i] == form.comment[k];
  }

  /** A form just reset cannot be sent again until a rating is chosen. */
  lemma ResetFormNeedsRating(projectId: string)
    ensures Validate(EmptyForm(projectId)) == Some(NoRating)
  {
  }

  /** One call of `handleInputChange(field, value)`. */
  datatype Edit = SetName(name: string) | SetRating(rating: int) | SetComment(comment: string) | SetProject(project: string)

  function ApplyEdit(form: ReviewForm, edit: Edit): (r: ReviewForm)
    ensures edit.SetName? ==> r == form.(name := edit.name)
    ensures edit.SetRating? ==> r == form.(rating := edit.rating)
    ensures edit.SetComment? ==> r == form.(comment := edit.comment)
    ensures edit.SetProject? ==> r == form.(project := edit.project)
  {
    match edit
    case SetName(n) => form.(name := n)
    case SetRating(v) => form.(rating := v)
    case SetComment(c) => form.(comment := c)
    case SetProject(p) => form.(project := p)
  }

  /** The project picker is loaded only for an open modal with no project given. */
  predicate FetchesProjects(isOpen: bool, projectId: string)
  {
    isOpen && projectId == ""
  }

  class Modal<P> {
    var formData: ReviewForm
    var projects: seq<P>
    var loading: bool
    /** The error text; "" when there is none. */
    var error: string
    const projectId: string

    constructor (projectId: string)
      ensures formData == EmptyForm(projectId) && projects == [] && !loading && error == ""
      ensures this.projectId == projectId
    {
      formData := EmptyForm(projectId);
      projects := [];
      loading := false;
      error := "";
      this.projectId := projectId;
    }

    /** The effect on `isOpen` and `projectId`: whether it starts loading the project list. */
    method OpenEffect(isOpen: bool) returns (fetch: bool)
      ensures fetch <==> FetchesProjects(isOpen, projectId)
    {
      fetch := isOpen && projectId == "";
    }

    /** The project-list fetch once `getProjects` settled; a failure is only logged. */
    method ProjectsFetched(response: Outcome<seq<P>>)
      modifies this
      ensures response.Ok? ==> projects == response.value
      ensures response.Err? ==> projects == old(projects)
      ensures formData == old(formData) && loading == old(loading) && error == old(error)
    {
      if response.Ok? {
        projects := response.value;
      }
    }

    /** `handleSubmit` up to its `await`: returns the form handed to `onSubmit`, or
        `None` when validation stopped it. */
    method BeginSubmit() returns (submitted: Option<ReviewForm>)
      modifies this
      ensures Validate(old(formData)).Some? ==>
        submitted.None? && error == Validate(old(formData)).value && loading == old(loading)
      ensures Validate(old(formData)).None? ==>
        submitted == Some(old(formData)) && loading && error == ""
      ensures formData == old(formData) && projects == old(projects)
    {
      var problem := Validate(formData);
      if problem.Some? {
        error := problem.value;
        return None;
      }
      loading := true;
      error := "";
      submitted := Some(formData);
    }

    /** `handleSubmit` once `onSubmit` settled; `fallback` is the translated
        'review.error' text. */
    method SubmitSettled(outcome: Outcome<()>, fallback: string)
      modifies this
      ensures !loading
      ensures outcome.Ok? ==> formData == EmptyForm(projectId) && error == old(error)
      ensures outcome.Err? ==> formData == old(formData) && error == OrElse(outcome.failure.message, fallback)
      ensures projects == old(projects)
    {
      if outcome.Ok? {
        formData := EmptyForm(projectId);
      } else {
        error := OrElse(outcome.failure.message, fallback);
      }
      loading := false;
    }

    /** `handleInputChange`: the one field changes and any error is cleared. */
    method InputChange(edit: Edit)
      modifies this
      ensures formData == ApplyEdit(old(formData), edit)
      ensures error == ""
      ensures projects == old(projects) && loading == old(loading)
    {
      formData := ApplyEdit(formData, edit);
      if error != "" {
        error := "";
      }
    }
  }
}
