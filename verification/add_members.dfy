/**
 * The add-members panel: a single-member form and an Excel bulk upload, as
 * transitions on `{form, file, loading, error, success}`. The two API calls
 * are abstracted to their outcome; the picked file is an opaque handle.
 */
module AddMembers {
  import opened Js

  /**
   * A form value. The `year` field starts as the number 1, but an input
   * event stores the input's string value in it, so it may hold either.
   */
  datatype FieldValue = Number(n: int) | Text(t: string)

  datatype Member = Member(name: string, roll_no: string, year: FieldValue, department: string)

  /** The form's initial value, and the value it is reset to after an add. */
  const DefaultMember := Member("", "", Number(1), "")

  /** A file picked in the upload widget; only its identity matters here. */
  datatype FileRef = FileRef(name: string)

  datatype PanelState = PanelState(form: Member, file: Option<FileRef>, loading: bool,
                                   error: string, success: string)

  const InitialPanel := PanelState(DefaultMember, None, false, "", "")

  /** The `name` attributes of the four inputs. */
  datatype MemberField = Name | RollNo | Year | Department

  /** The value a field holds. */
  function Get(m: Member, f: MemberField): FieldValue {
    match f
    case Name => Text(m.name)
    case RollNo => Text(m.roll_no)
    case Year => m.year
    case Department => Text(m.department)
  }

  /** `{...prev, [name]: value}` with the input's string value. */
  function Set(m: Member, f: MemberField, v: string): (r: Member)
    ensures Get(r, f) == Text(v)
    ensures forall g :: g != f ==> Get(r, g) == Get(m, g)
  {
    match f
    case Name => m.(name := v)
    case RollNo => m.(roll_no := v)
    case Year => m.(year := Text(v))
    case Department => m.(department := v)
  }

  const AddedOne := "Member added successfully!"
  const AddedMany := "Members added successfully!"
  const AddFailed := "Failed to add member."
  const UploadFailed := "Failed to upload members."
  const NoFileChosen := "Please select an Excel file."

  /** The messages are shown only while non-empty; "no message" is "". */
  predicate NoMessages(s: PanelState) {
    s.error == "" && s.success == ""
  }

  /** `handleInputChange`: the named field takes the typed string and both messages clear. */
  function HandleInputChange(s: PanelState, f: MemberField, v: string): (r: PanelState)
    ensures Get(r.form, f) == Text(v)
    ensures forall g :: g != f ==> Get(r.form, g) == Get(s.form, g)
    ensures r.file == s.file && r.loading == s.loading && NoMessages(r)
  {
    PanelState(Set(s.form, f, v), s.file, s.loading, "", "")
  }

  /**
   * `handleFileChange` on the list of picked files (an absent list is the
   * empty list): only the first file counts, and picking nothing changes nothing.
   */
  function HandleFileChange(s: PanelState, files: seq<FileRef>): (r: PanelState)
    ensures files == [] ==> r == s
    ensures files != [] ==> r.file == Some(files[0]) && NoMessages(r)
    ensures r.form == s.form && r.loading == s.loading
  {
    if files != [] then s.(file := Some(files[0]), error := "", success := "") else s
  }

  /** What the awaited call did: resolved (its value is unused), or threw. */
  datatype CallOutcome = Resolved | Threw(errorField: Option<string>)

  /** The API calls the panel makes. */
  datatype ApiCall = AddMember(member: Member) | UploadMembersXlsx(file: FileRef)

  /** A handler run: new state, calls made, and whether `onSuccess` fired. */
  datatype Step = Step(state: PanelState, calls: seq<ApiCall>, notified: bool)

  /** The first half of both submits: raise loading, clear both messages. */
  function SubmitBegin(s: PanelState): (p: PanelState)
    ensures p.loading && NoMessages(p) && p.form == s.form && p.file == s.file
  {
    s.(loading := true, error := "", success := "")
  }

  /** `handleAddMember`, run to completion. */
  function HandleAddMember(s: PanelState, outcome: CallOutcome): (r: Step)
    ensures r.calls == [AddMember(s.form)]
    ensures !r.state.loading && r.state.file == s.file
    ensures r.notified <==> outcome.Resolved?
    ensures r.notified ==> r.state.success == AddedOne && r.state.error == "" && r.state.form == DefaultMember
    ensures !r.notified ==> r.state.success == "" && Truthy(r.state.error) && r.state.form == s.form
  {
    var p := SubmitBegin(s);
    match outcome
    case Resolved =>
      Step(p.(success := AddedOne, form := DefaultMember, loading := false), [AddMember(s.form)], true)
    case Threw(errorField) =>
      Step(p.(error := ErrorText(errorField, AddFailed), loading := false), [AddMember(s.form)], false)
  }

  /** `handleUploadXlsx`, run to completion. */
  function HandleUpload(s: PanelState, outcome: CallOutcome): (r: Step)
    ensures s.file.None? ==> r == Step(s.(error := NoFileChosen), [], false)
    ensures s.file.Some? ==> r.calls == [UploadMembersXlsx(s.file.value)] && !r.state.loading
    ensures r.state.form == s.form
    ensures r.notified <==> s.file.Some? && outcome.Resolved?
    ensures r.notified ==> r.state.success == AddedMany && r.state.error == "" && r.state.file.None?
  {
    match s.file
    case None =>
      // no call, and neither `loading` nor `success` is touched
      Step(s.(error := NoFileChosen), [], false)
    case Some(f) =>
      var p := SubmitBegin(s);
      match outcome
      case Resolved =>
        Step(p.(success := AddedMany, file := None, loading := false), [UploadMembersXlsx(f)], true)
      case Threw(errorField) =>
        Step(p.(error := ErrorText(errorField, UploadFailed), loading := false), [UploadMembersXlsx(f)], false)
  }

  /** A failed add or upload shows the thrown `error` field, or else its own fallback. */
  lemma FailureMessages(s: PanelState, errorField: Option<string>)
    ensures var m := HandleAddMember(s, Threw(errorField)).state.error;
            if TruthyField(errorField) then m == errorField.value else m == AddFailed
    ensures s.file.Some? ==>
            var m := HandleUpload(s, Threw(errorField)).state.error;
            if TruthyField(errorField) then m == errorField.value else m == UploadFailed
  {
  }

  /** A failed upload keeps the picked file, so the user can retry it. */
  lemma FailedUploadKeepsFile(s: PanelState, errorField: Option<string>)
    requires s.file.Some?
    ensures var r := HandleUpload(s, Threw(errorField)).state;
            r.file == s.file && r.success == "" && !r.loading
  {
  }

  /** One user action on the panel, run to completion. */
  datatype Action =
    | Input(field: MemberField, value: string)
    | PickFiles(files: seq<FileRef>)
    | SubmitMember(addOutcome: CallOutcome)
    | SubmitUpload(uploadOutcome: CallOutcome)

  function Apply(s: PanelState, a: Action): PanelState {
    match a
    case Input(f, v) => HandleInputChange(s, f, v)
    case PickFiles(files) => HandleFileChange(s, files)
    case SubmitMember(o) => HandleAddMember(s, o).state
    case SubmitUpload(o) => HandleUpload(s, o).state
  }

  function Run(s: PanelState, actions: seq<Action>): PanelState
    decreases |actions|
  {
    if actions == [] then s else Apply(Run(s, actions[..|actions| - 1]), actions[|actions| - 1])
  }

  /** No action leaves the panel loading once it has run to completion. */
  lemma {:induction false} RunNeverLeavesLoading(s: PanelState, actions: seq<Action>)
    requires !s.loading
    ensures !Run(s, actions).loading
    decreases |actions|
  {
    if actions != [] {
      var prefix := actions[..|actions| - 1];
      RunNeverLeavesLoading(s, prefix);
      var before := Run(s, prefix);
      assert !before.loading;
      assert Run(s, actions) == Apply(before, actions[|actions| - 1]);
    }
  }

  /**
   * Every action except an upload with no file leaves at most one of the two
   * messages showing.
   */
  lemma AtMostOneMessage(s: PanelState, a: Action)
    requires !(a.SubmitUpload? && s.file.None?)
    requires !(Truthy(s.error) && Truthy(s.success))
    ensures var r := Apply(s, a); !(Truthy(r.error) && Truthy(r.success))
  {
  }

  /**
   * The exception: after a successful upload the file is cleared, so pressing
   * upload again shows the "select a file" error beside the stale success
   * message.
   */
  lemma UploadAgainShowsBothMessages(f: FileRef)
    ensures var uploaded := HandleUpload(InitialPanel.(file := Some(f)), Resolved).state;
            var again := HandleUpload(uploaded, Resolved);
            again.state.error == NoFileChosen && again.state.success == AddedMany && again.calls == []
  {
  }
}
