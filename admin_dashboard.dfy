/** The admin panel: the technologies field parser, the certificate and project
    forms, and the submit, edit, cancel and delete handlers. */
module AdminDashboard {
  import opened Common
  import opened Text

  // ---------------------------------------------------------------- technologies

  /** `pieces.map(tech => tech.trim())`. */
  function TrimAll(pieces: seq<string>): (r: seq<string>)
    ensures |r| == |pieces|
    ensures forall k :: 0 <= k < |r| ==> r[k] == Trim(pieces[k])
  {
    seq(|pieces|, k requires 0 <= k < |pieces| => Trim(pieces[k]))
  }

  /** An entry of the technologies list as the parser produces it. */
  predicate IsTechnology(t: string)
  {
    t != "" && IsTrimmed(t) && ',' !in t
  }

  /** `value.split(',').map(tech => tech.trim()).filter(tech => tech)`: every entry of
      the result is non-empty, trimmed and free of commas. */
  function ParseTechnologies(text: string): (r: seq<string>)
    ensures forall k :: 0 <= k < |r| ==> IsTechnology(r[k])
  {
    SplitPiecesFree(text, ',');
    ParsedEntries(Split(text, ','));
    DropEmpty(TrimAll(Split(text, ',')))
  }

  /** Trimming comma-free pieces and dropping the empty ones leaves only well-formed entries. */
  lemma ParsedEntries(pieces: seq<string>)
    requires forall k :: 0 <= k < |pieces| ==> ',' !in pieces[k]
    ensures forall k :: 0 <= k < |DropEmpty(TrimAll(pieces))| ==> IsTechnology(DropEmpty(TrimAll(pieces))[k])
  {
    var trimmed := TrimAll(pieces);
    var r := DropEmpty(trimmed);
    DropEmptyMembers(trimmed);
    forall k | 0 <= k < |r| ensures IsTechnology(r[k]) {
      assert r[k] in trimmed;
      var j :| 0 <= j < |trimmed| && trimmed[j] == r[k];
      assert r[k] == Trim(pieces[j]);
      TrimIsSlice(pieces[j]);
    }
  }

  /** The text the form field displays: `technologies.join(', ')`. */
  function TechnologiesText(ts: seq<string>): (r: string)
    ensures ts == [] ==> r == ""
    ensures ts != [] ==> |ts[0]| <= |r| && r[..|ts[0]|] == ts[0]
  {
    Join(ts, ", ")
  }

  /** Splitting a joined list of comma-free entries at the commas gives the first
      entry, then every later entry with the blank the separator put in front of it. */
  lemma {:induction false} SplitJoined(ts: seq<string>)
    requires |ts| >= 1
    requires forall k :: 0 <= k < |ts| ==> ',' !in ts[k]
    ensures |Split(TechnologiesText(ts), ',')| == |ts|
    ensures Split(TechnologiesText(ts), ',')[0] == ts[0]
    ensures forall k :: 1 <= k < |ts| ==> Split(TechnologiesText(ts), ',')[k] == " " + ts[k]
  {
    if |ts| == 1 {
      SplitCommaFree(ts[0]);
    } else {
      var tail := Join(ts[1..], ", ");
      SplitJoined(ts[1..]);
      var rest := Split(tail, ',');
      var text := TechnologiesText(ts);
      assert text == ts[0] + [','] + (" " + tail);
      SplitAfterComma(ts[0], " " + tail);
      assert (" " + tail)[1..] == tail;
      var spaced := Split(" " + tail, ',');
      assert spaced == [" " + rest[0]] + rest[1..];
      var all := Split(text, ',');
      assert all == [ts[0]] + spaced;
      forall k | 1 <= k < |ts| ensures all[k] == " " + ts[k] {
        assert all[k] == spaced[k - 1];
        if k > 1 {
          assert spaced[k - 1] == rest[k - 1];
          assert ts[1..][k - 1] == ts[k];
        }
      }
    }
  }

  lemma {:induction false} SplitCommaFree(s: string)
    requires ',' !in s
    ensures Split(s, ',') == [s]
  {
    if s != [] {
      SplitCommaFree(s[1..]);
      assert [s[0]] + s[1..] == s;
    }
  }

  lemma {:induction false} SplitAfterComma(a: string, b: string)
    requires ',' !in a
    ensures Split(a + [','] + b, ',') == [a] + Split(b, ',')
  {
    if a == [] {
      assert ([] + [','] + b)[1..] == b;
    } else {
      SplitAfterComma(a[1..], b);
      assert (a + [','] + b)[1..] == a[1..] + [','] + b;
      assert [a[0]] + a[1..] == a;
    }
  }

  /** Parsing the displayed text of a list of well-formed entries gives the list back. */
  lemma {:induction false} ParseDisplayRoundTrip(ts: seq<string>)
    requires forall k :: 0 <= k < |ts| ==> IsTechnology(ts[k])
    ensures ParseTechnologies(TechnologiesText(ts)) == ts
  {
    if ts == [] {
      ParseEmpty();
    } else {
      var pieces := Split(TechnologiesText(ts), ',');
      var trimmed := TrimAll(pieces);
      SplitJoined(ts);
      forall k | 0 <= k < |ts| ensures trimmed[k] == ts[k] {
        if k == 0 { TrimTrimmed(ts[0]); } else { TrimAfterSpace(ts[k]); }
      }
      assert trimmed == ts;
      DropEmptyNoEmpty(ts);
    }
  }

  lemma ParseEmpty()
    ensures ParseTechnologies("") == []
  {
    assert Split("", ',') == [""];
    assert TrimAll([""]) == [""];
  }

  /** What the parser makes of a text is unchanged by displaying it and parsing it again. */
  lemma {:induction false} ParseStable(text: string)
    ensures ParseTechnologies(TechnologiesText(ParseTechnologies(text))) == ParseTechnologies(text)
  {
    ParseDisplayRoundTrip(ParseTechnologies(text));
  }

  // ---------------------------------------------------------------- dates

  /** `date?.split('T')[0] || ''`: the text before the first 'T', or '' when there is no date. */
  function DatePart(date: Option<string>): (r: string)
    ensures 'T' !in r
    ensures date.None? ==> r == ""
    ensures date.Some? ==> |r| <= |date.value| && r == date.value[..|r|]
    ensures date.Some? && |r| < |date.value| ==> date.value[|r|] == 'T'
  {
    match date
    case None => ""
    case Some(d) =>
      var pieces := Split(d, 'T');
      SplitJoin(d, 'T');
      SplitPiecesFree(d, 'T');
      if |pieces| == 1 then pieces[0]
      else
        assert d == pieces[0] + "T" + Join(pieces[1..], "T");
        assert d[..|pieces[0]|] == pieces[0];
        pieces[0]
  }

  // ---------------------------------------------------------------- records and forms

  /** A certificate as the server returns it; optional fields may be missing. */
  datatype CertificateRecord = CertificateRecord(
    id: string, title: string, issuer: string,
    issueDate: Option<string>, expiryDate: Option<string>,
    credentialId: Option<string>, credentialUrl: Option<string>,
    imageUrl: Option<string>, description: Option<string>,
    featured: Option<bool>, order: Option<int>)

  /** A project as the server returns it. */
  datatype ProjectRecord = ProjectRecord(
    id: string, title: string, description: Option<string>,
    technologies: Option<seq<string>>, imageUrl: Option<string>,
    liveUrl: Option<string>, githubUrl: Option<string>,
    featured: Option<bool>, order: Option<int>)

  /** A value held in a form's state object. */
  datatype Field = Text(text: string) | Flag(flag: bool) | Number(number: int) | Items(items: seq<string>)

  /** The `name` attributes of the form inputs. */
  datatype FieldName =
    | Title | Issuer | IssueDate | ExpiryDate | CredentialId | CredentialUrl
    | ImageUrl | Description | Featured | Order | Technologies | LiveUrl | GithubUrl

  type Form = map<FieldName, Field>

  const CertificateFields: set<FieldName> :=
    {Title, Issuer, IssueDate, ExpiryDate, CredentialId, CredentialUrl, ImageUrl, Description, Featured, Order}
  const ProjectFields: set<FieldName> :=
    {Title, Description, Technologies, ImageUrl, LiveUrl, GithubUrl, Featured, Order}

  /** Optional text, `value || ''`. */
  function TextOr(v: Option<string>): string
  {
    match v case None => "" case Some(s) => s
  }

  /** The value each field of an empty form holds. */
  function EmptyValue(name: FieldName): Field
  {
    match name
    case Featured => Flag(false)
    case Order => Number(0)
    case Technologies => Items([])
    case _ => Text("")
  }

  /** The empty certificate form. */
  const EmptyCertificateForm: Form := map name | name in CertificateFields :: EmptyValue(name)

  /** The empty project form. */
  const EmptyProjectForm: Form := map name | name in ProjectFields :: EmptyValue(name)

  /** The two fields of a form hold values of the same kind. */
  predicate SameKind(a: Field, b: Field)
  {
    (a.Text? && b.Text?) || (a.Flag? && b.Flag?) || (a.Number? && b.Number?) || (a.Items? && b.Items?)
  }

  /** What `handleCertificateEdit` puts in one field. */
  function CertificateValue(c: CertificateRecord, name: FieldName): Field
  {
    match name
    case Title => Text(c.title)
    case Issuer => Text(c.issuer)
    case IssueDate => Text(DatePart(c.issueDate))
    case ExpiryDate => Text(DatePart(c.expiryDate))
    case CredentialId => Text(TextOr(c.credentialId))
    case CredentialUrl => Text(TextOr(c.credentialUrl))
    case ImageUrl => Text(TextOr(c.imageUrl))
    case Description => Text(TextOr(c.description))
    case Featured => Flag(match c.featured case None => false case Some(b) => b)
    case Order => Number(match c.order case None => 0 case Some(n) => n)
    case _ => EmptyValue(name)
  }

  /** What `handleProjectEdit` puts in one field. */
  function ProjectValue(p: ProjectRecord, name: FieldName): Field
  {
    match name
    case Title => Text(p.title)
    case Description => Text(TextOr(p.description))
    case Technologies => Items(match p.technologies case None => [] case Some(ts) => ts)
    case ImageUrl => Text(TextOr(p.imageUrl))
    case LiveUrl => Text(TextOr(p.liveUrl))
    case GithubUrl => Text(TextOr(p.githubUrl))
    case Featured => Flag(match p.featured case None => false case Some(b) => b)
    case Order => Number(match p.order case None => 0 case Some(n) => n)
    case _ => EmptyValue(name)
  }

  /** The optional fields a certificate record leaves out. */
  predicate CertificateMissing(c: CertificateRecord, name: FieldName)
  {
    match name
    case IssueDate => c.issueDate.None?
    case ExpiryDate => c.expiryDate.None?
    case CredentialId => c.credentialId.None?
    case CredentialUrl => c.credentialUrl.None?
    case ImageUrl => c.imageUrl.None?
    case Description => c.description.None?
    case Featured => c.featured.None?
    case Order => c.order.None?
    case _ => false
  }

  /** The optional fields a project record leaves out. */
  predicate ProjectMissing(p: ProjectRecord, name: FieldName)
  {
    match name
    case Description => p.description.None?
    case Technologies => p.technologies.None?
    case ImageUrl => p.imageUrl.None?
    case LiveUrl => p.liveUrl.None?
    case GithubUrl => p.githubUrl.None?
    case Featured => p.featured.None?
    case Order => p.order.None?
    case _ => false
  }

  /** The form `handleCertificateEdit` fills in from a record: the same fields as the
      empty form, the title and issuer copied, and the dates cut before their time part. */
  function CertificateEditForm(c: CertificateRecord): (f: Form)
    ensures f.Keys == EmptyCertificateForm.Keys
    ensures f[Title] == Text(c.title) && f[Issuer] == Text(c.issuer)
    ensures f[IssueDate].Text? && 'T' !in f[IssueDate].text && f[ExpiryDate].Text? && 'T' !in f[ExpiryDate].text
  {
    map name | name in CertificateFields :: CertificateValue(c, name)
  }

  /** Every field of the certificate edit form holds a value of the kind the empty form
      holds there, and a field the record leaves out keeps its empty value. */
  lemma CertificateEditFields(c: CertificateRecord)
    ensures forall k :: k in CertificateEditForm(c) ==> SameKind(CertificateEditForm(c)[k], EmptyCertificateForm[k])
    ensures forall k :: k in CertificateEditForm(c) && CertificateMissing(c, k) ==>
      CertificateEditForm(c)[k] == EmptyCertificateForm[k]
  {
    var f := CertificateEditForm(c);
    forall k | k in f
      ensures SameKind(f[k], EmptyCertificateForm[k])
      ensures CertificateMissing(c, k) ==> f[k] == EmptyCertificateForm[k]
    {
      assert f[k] == CertificateValue(c, k) && EmptyCertificateForm[k] == EmptyValue(k);
    }
  }

  /** Field by field, the certificate edit form holds what the record holds: the dates
      cut before their time part, every optional text the record carries copied as it is,
      the featured flag set exactly when the record says `true`, and the order the
      record's, or 0 when it has none. */
  lemma CertificateEditValues(c: CertificateRecord)
    ensures CertificateEditForm(c)[IssueDate] == Text(DatePart(c.issueDate))
    ensures CertificateEditForm(c)[ExpiryDate] == Text(DatePart(c.expiryDate))
    ensures c.credentialId.Some? ==> CertificateEditForm(c)[CredentialId] == Text(c.credentialId.value)
    ensures c.credentialUrl.Some? ==> CertificateEditForm(c)[CredentialUrl] == Text(c.credentialUrl.value)
    ensures c.imageUrl.Some? ==> CertificateEditForm(c)[ImageUrl] == Text(c.imageUrl.value)
    ensures c.description.Some? ==> CertificateEditForm(c)[Description] == Text(c.description.value)
    ensures CertificateEditForm(c)[Featured] == Flag(c.featured == Some(true))
    ensures CertificateEditForm(c)[Order] == Number(if c.order.Some? then c.order.value else 0)
  {
  }

  /** The form `handleProjectEdit` fills in from a record: the same fields as the empty
      form, with the title and the technologies list copied. */
  function ProjectEditForm(p: ProjectRecord): (f: Form)
    ensures f.Keys == EmptyProjectForm.Keys
    ensures f[Title] == Text(p.title)
    ensures p.technologies.Some? ==> f[Technologies] == Items(p.technologies.value)
  {
    map name | name in ProjectFields :: ProjectValue(p, name)
  }

  /** Every field of the project edit form holds a value of the kind the empty form holds
      there, and a field the record leaves out keeps its empty value. */
  lemma ProjectEditFields(p: ProjectRecord)
    ensures forall k :: k in ProjectEditForm(p) ==> SameKind(ProjectEditForm(p)[k], EmptyProjectForm[k])
    ensures forall k :: k in ProjectEditForm(p) && ProjectMissing(p, k) ==> ProjectEditForm(p)[k] == EmptyProjectForm[k]
  {
    var f := ProjectEditForm(p);
    forall k | k in f
      ensures SameKind(f[k], EmptyProjectForm[k])
      ensures ProjectMissing(p, k) ==> f[k] == EmptyProjectForm[k]
    {
      assert f[k] == ProjectValue(p, k) && EmptyProjectForm[k] == EmptyValue(k);
    }
  }

  /** Field by field, the project edit form holds what the record holds: every optional
      text the record carries copied as it is, the technologies list or the empty list,
      the featured flag set exactly when the record says `true`, and the order the
      record's, or 0 when it has none. */
  lemma ProjectEditValues(p: ProjectRecord)
    ensures p.description.Some? ==> ProjectEditForm(p)[Description] == Text(p.description.value)
    ensures ProjectEditForm(p)[Technologies] == Items(if p.technologies.Some? then p.technologies.value else [])
    ensures p.imageUrl.Some? ==> ProjectEditForm(p)[ImageUrl] == Text(p.imageUrl.value)
    ensures p.liveUrl.Some? ==> ProjectEditForm(p)[LiveUrl] == Text(p.liveUrl.value)
    ensures p.githubUrl.Some? ==> ProjectEditForm(p)[GithubUrl] == Text(p.githubUrl.value)
    ensures ProjectEditForm(p)[Featured] == Flag(p.featured == Some(true))
    ensures ProjectEditForm(p)[Order] == Number(if p.order.Some? then p.order.value else 0)
  {
  }

  /** `{ ...prev, [name]: type === 'checkbox' ? checked : value }`. */
  function InputChange(form: Form, name: FieldName, value: string, isCheckbox: bool, checked: bool): (f: Form)
    ensures f.Keys == form.Keys + {name}
    ensures forall k :: k in form && k != name ==> f[k] == form[k]
    ensures isCheckbox ==> f[name] == Flag(checked)
    ensures !isCheckbox ==> f[name] == Text(value)
  {
    form[name := if isCheckbox then Flag(checked) else Text(value)]
  }

  // ---------------------------------------------------------------- the dashboard

  datatype Tab = CertificatesTab | ProjectsTab

  /** What the dashboard renders. */
  datatype View = AccessDenied | Panel(tab: Tab, showForm: bool)

  /** The request a submit sends. */
  datatype SaveRequest = Create(form: Form) | Update(id: string, form: Form)

  /** The admin gate: a non-admin sees only the access-denied view. */
  function DashboardView(isAdmin: bool, tab: Tab, showForm: bool): (v: View)
    ensures v == AccessDenied <==> !isAdmin
    ensures v.Panel? ==> v.tab == tab && v.showForm == showForm
  {
    if !isAdmin then AccessDenied else Panel(tab, showForm)
  }

  /** The request a submit sends for the record being edited, if any. */
  function SaveRequestFor<R>(editing: Option<R>, id: R -> string, form: Form): (r: SaveRequest)
    ensures r.form == form
    ensures editing.Some? <==> r.Update?
    ensures r.Update? ==> r.id == id(editing.value)
  {
    match editing
    case None => Create(form)
    case Some(e) => Update(id(e), form)
  }

  function CertificateId(c: CertificateRecord): string { c.id }
  function ProjectId(p: ProjectRecord): string { p.id }

  class Dashboard {
    var activeTab: Tab
    var showForm: bool
    var editingCertificate: Option<CertificateRecord>
    var editingProject: Option<ProjectRecord>
    var certificateForm: Form
    var projectForm: Form

    constructor ()
      ensures activeTab == CertificatesTab && !showForm
      ensures editingCertificate == None && editingProject == None
      ensures certificateForm == EmptyCertificateForm && projectForm == EmptyProjectForm
    {
      activeTab := CertificatesTab;
      showForm := false;
      editingCertificate := None;
      editingProject := None;
      certificateForm := EmptyCertificateForm;
      projectForm := EmptyProjectForm;
    }

    method SelectTab(tab: Tab)
      modifies this
      ensures activeTab == tab
      ensures showForm == old(showForm) && certificateForm == old(certificateForm) && projectForm == old(projectForm)
      ensures editingCertificate == old(editingCertificate) && editingProject == old(editingProject)
    {
      activeTab := tab;
    }

    /** The "Add" buttons. */
    method OpenForm()
      modifies this
      ensures showForm
      ensures activeTab == old(activeTab) && certificateForm == old(certificateForm) && projectForm == old(projectForm)
      ensures editingCertificate == old(editingCertificate) && editingProject == old(editingProject)
    {
      showForm := true;
    }

    method CertificateInputChange(name: FieldName, value: string, isCheckbox: bool, checked: bool)
      modifies this
      ensures certificateForm == InputChange(old(certificateForm), name, value, isCheckbox, checked)
      ensures activeTab == old(activeTab) && showForm == old(showForm) && projectForm == old(projectForm)
      ensures editingCertificate == old(editingCertificate) && editingProject == old(editingProject)
    {
      certificateForm := certificateForm[name := if isCheckbox then Flag(checked) else Text(value)];
    }

    method ProjectInputChange(name: FieldName, value: string, isCheckbox: bool, checked: bool)
      modifies this
      ensures projectForm == InputChange(old(projectForm), name, value, isCheckbox, checked)
      ensures activeTab == old(activeTab) && showForm == old(showForm) && certificateForm == old(certificateForm)
      ensures editingCertificate == old(editingCertificate) && editingProject == old(editingProject)
    {
      projectForm := projectForm[name := if isCheckbox then Flag(checked) else Text(value)];
    }

    /** Typing in the technologies field stores the parsed list. */
    method TechnologiesChange(text: string)
      modifies this
      ensures projectForm == old(projectForm)[Technologies := Items(ParseTechnologies(text))]
      ensures activeTab == old(activeTab) && showForm == old(showForm) && certificateForm == old(certificateForm)
      ensures editingCertificate == old(editingCertificate) && editingProject == old(editingProject)
    {
      projectForm := projectForm[Technologies := Items(ParseTechnologies(text))];
    }

    /** `handleCertificateSubmit`, given how the update or create call settled.
        Returns the request sent and whether a refetch of the list was issued. */
    method SubmitCertificate(saved: Outcome<()>) returns (request: SaveRequest, refetch: bool)
      modifies this
      ensures request == SaveRequestFor(old(editingCertificate), CertificateId, old(certificateForm))
      ensures refetch <==> saved.Ok?
      ensures saved.Ok? ==> !showForm && editingCertificate == None && certificateForm == EmptyCertificateForm
      ensures saved.Err? ==> showForm == old(showForm) && editingCertificate == old(editingCertificate) && certificateForm == old(certificateForm)
      ensures activeTab == old(activeTab) && projectForm == old(projectForm) && editingProject == old(editingProject)
    {
      request := SaveRequestFor(editingCertificate, CertificateId, certificateForm);
      refetch := false;
      if saved.Ok? {
        showForm := false;
        editingCertificate := None;
        certificateForm := EmptyCertificateForm;
        refetch := true;
      }
    }

    /** `handleProjectSubmit`, given how the update or create call settled. */
    method SubmitProject(saved: Outcome<()>) returns (request: SaveRequest, refetch: bool)
      modifies this
      ensures request == SaveRequestFor(old(editingProject), ProjectId, old(projectForm))
      ensures refetch <==> saved.Ok?
      ensures saved.Ok? ==> !showForm && editingProject == None && projectForm == EmptyProjectForm
      ensures saved.Err? ==> showForm == old(showForm) && editingProject == old(editingProject) && projectForm == old(projectForm)
      ensures activeTab == old(activeTab) && certificateForm == old(certificateForm) && editingCertificate == old(editingCertificate)
    {
      request := SaveRequestFor(editingProject, ProjectId, projectForm);
      refetch := false;
      if saved.Ok? {
        showForm := false;
        editingProject := None;
        projectForm := EmptyProjectForm;
        refetch := true;
      }
    }

    method EditCertificate(c: CertificateRecord)
      modifies this
      ensures editingCertificate == Some(c) && certificateForm == CertificateEditForm(c) && showForm
      ensures activeTab == old(activeTab) && projectForm == old(projectForm) && editingProject == old(editingProject)
    {
      editingCertificate := Some(c);
      certificateForm := CertificateEditForm(c);
      showForm := true;
    }

    method EditProject(p: ProjectRecord)
      modifies this
      ensures editingProject == Some(p) && projectForm == ProjectEditForm(p) && showForm
      ensures activeTab == old(activeTab) && certificateForm == old(certificateForm) && editingCertificate == old(editingCertificate)
    {
      editingProject := Some(p);
      projectForm := ProjectEditForm(p);
      showForm := true;
    }

    /** The certificate form's Cancel button. */
    method CancelCertificate()
      modifies this
      ensures !showForm && editingCertificate == None && certificateForm == EmptyCertificateForm
      ensures activeTab == old(activeTab) && projectForm == old(projectForm) && editingProject == old(editingProject)
    {
      showForm := false;
      editingCertificate := None;
      certificateForm := EmptyCertificateForm;
    }

    /** The project form's Cancel button. */
    method CancelProject()
      modifies this
      ensures !showForm && editingProject == None && projectForm == EmptyProjectForm
      ensures activeTab == old(activeTab) && certificateForm == old(certificateForm) && editingCertificate == old(editingCertificate)
    {
      showForm := false;
      editingProject := None;
      projectForm := EmptyProjectForm;
    }
  }

  /** `handleCertificateDelete` / `handleProjectDelete`: the delete call is made only
      when the user confirmed, and the list is refetched only after it succeeded. */
  method Delete(confirmed: bool, deleted: Outcome<()>) returns (deleteCalled: bool, refetch: bool)
    ensures deleteCalled == confirmed
    ensures refetch <==> confirmed && deleted.Ok?
  {
    deleteCalled := false;
    refetch := false;
    if confirmed {
      deleteCalled := true;
      if deleted.Ok? {
        refetch := true;
      }
    }
  }
}
