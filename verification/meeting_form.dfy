/**
 * The create-meeting dialog: an ordered validator and the input-change,
 * submit and close handlers as transitions on `{formData, loading, error}`.
 * The create-meeting API call is abstracted to its outcome; the wall clock is
 * a `now` argument and `new Date(text)` a parser argument.
 */
module MeetingForm {
  import opened Js

  datatype MeetingData = MeetingData(meeting_name: string, date: string, m_o_m: string)

  /** The form's initial value, and the value it is reset to. */
  const EmptyMeeting := MeetingData("", "", "")

  datatype FormState = FormState(formData: MeetingData, loading: bool, error: string)

  /** The dialog as first rendered. */
  const InitialState := FormState(EmptyMeeting, false, "")

  /** The `name` attributes of the dialog's three inputs. */
  datatype MeetingField = MeetingName | Date | Agenda

  function Get(d: MeetingData, f: MeetingField): string {
    match f
    case MeetingName => d.meeting_name
    case Date => d.date
    case Agenda => d.m_o_m
  }

  /** `{...prev, [name]: value}`. */
  function Set(d: MeetingData, f: MeetingField, v: string): (r: MeetingData)
    ensures Get(r, f) == v
    ensures forall g :: g != f ==> Get(r, g) == Get(d, g)
  {
    match f
    case MeetingName => d.(meeting_name := v)
    case Date => d.(date := v)
    case Agenda => d.(m_o_m := v)
  }

  /** `handleInputChange`: the named field takes the typed value and any error is cleared. */
  function HandleInputChange(s: FormState, f: MeetingField, v: string): (r: FormState)
    ensures Get(r.formData, f) == v
    ensures forall g :: g != f ==> Get(r.formData, g) == Get(s.formData, g)
    ensures r.loading == s.loading && r.error == ""
  {
    // `if (error) setError('')` leaves "" alone and clears anything else
    var error := if Truthy(s.error) then "" else s.error;
    FormState(Set(s.formData, f, v), s.loading, error)
  }

  /** Typing the value a field already holds changes only the error. */
  lemma InputChangeSameValue(s: FormState, f: MeetingField)
    ensures HandleInputChange(s, f, Get(s.formData, f)) == s.(error := "")
  {
  }

  /**
   * `new Date(text).getTime()`: a timestamp, or `None` for an Invalid Date
   * (whose NaN compares false with everything).
   */
  type DateParser = string -> Option<int>

  const NameRequired := "Meeting name is required"
  const DateRequired := "Date and time are required"
  const AgendaRequired := "Meeting description/agenda is required"
  const DateInPast := "Please select a future date and time"
  const CreateFailed := "Failed to create meeting"
  const CreateFailedRetry := "Failed to create meeting. Please try again."

  /** `selectedDate < now`: the date parses to an instant before `now`; an Invalid Date is never past. */
  predicate IsPast(d: MeetingData, now: int, parse: DateParser)
    ensures IsPast(d, now, parse) <==> exists t :: parse(d.date) == Some(t) && t < now
    ensures parse(d.date).None? ==> !IsPast(d, now, parse)
  {
    parse(d.date).Some? && parse(d.date).value < now
  }

  /** `validateForm`: the if-chain as written; `None` is the source's `null`. */
  function ValidateForm(d: MeetingData, now: int, parse: DateParser): (r: Option<string>)
    ensures r.Some? ==> r.value in {NameRequired, DateRequired, AgendaRequired, DateInPast}
  {
    if IsBlank(d.meeting_name) then Some(NameRequired)
    else if !Truthy(d.date) then Some(DateRequired)
    else if IsBlank(d.m_o_m) then Some(AgendaRequired)
    else if IsPast(d, now, parse) then Some(DateInPast)
    else None
  }

  /** One validation rule: whether it passes, and the message shown when it does not. */
  datatype Check = Check(passes: bool, message: string)

  /** The rules in the order the validator tries them. */
  function Checks(d: MeetingData, now: int, parse: DateParser): seq<Check> {
    [ Check(!IsBlank(d.meeting_name), NameRequired),
      Check(Truthy(d.date), DateRequired),
      Check(!IsBlank(d.m_o_m), AgendaRequired),
      Check(!IsPast(d, now, parse), DateInPast) ]
  }

  /** The message of the first rule that fails, if any. */
  function FirstFailure(cs: seq<Check>): (r: Option<string>)
    ensures r.None? <==> forall i :: 0 <= i < |cs| ==> cs[i].passes
    ensures r.Some? ==> exists i :: 0 <= i < |cs| && !cs[i].passes && cs[i].message == r.value
                                    && forall j :: 0 <= j < i ==> cs[j].passes
  {
    if cs == [] then None
    else if !cs[0].passes then Some(cs[0].message)
    else
      var rest := FirstFailure(cs[1..]);
      assert forall i :: 1 <= i < |cs| ==> cs[i] == cs[1..][i - 1];
      rest
  }

  /** One step of the search: the head rule decides, or the search moves on. */
  lemma FirstFailureCons(c: Check, rest: seq<Check>)
    ensures FirstFailure([c] + rest) == if !c.passes then Some(c.message) else FirstFailure(rest)
  {
    assert ([c] + rest)[1..] == rest;
  }

  /** The validator returns the message of the first failing rule, in the order listed. */
  lemma ValidateIsFirstFailure(d: MeetingData, now: int, parse: DateParser)
    ensures ValidateForm(d, now, parse) == FirstFailure(Checks(d, now, parse))
  {
    var cs := Checks(d, now, parse);
    var t3 := [cs[3]];
    var t2 := [cs[2]] + t3;
    var t1 := [cs[1]] + t2;
    assert cs == [cs[0]] + t1;
    FirstFailureCons(cs[0], t1);
    FirstFailureCons(cs[1], t2);
    FirstFailureCons(cs[2], t3);
    FirstFailureCons(cs[3], []);
    assert [cs[3]] + [] == t3;
  }

  /**
   * The validator accepts exactly the forms with a non-blank name and agenda,
   * a non-empty date, and a date that is not before `now`.
   */
  lemma ValidateNoneIff(d: MeetingData, now: int, parse: DateParser)
    ensures ValidateForm(d, now, parse).None? <==>
              && !AllWhitespace(d.meeting_name)
              && d.date != ""
              && !AllWhitespace(d.m_o_m)
              && !(parse(d.date).Some? && parse(d.date).value < now)
  {
  }

  /** A form just reset is rejected for its missing name. */
  lemma EmptyFormRejected(now: int, parse: DateParser)
    ensures ValidateForm(EmptyMeeting, now, parse) == Some(NameRequired)
  {
    assert Trim("") == "";
  }

  /** What the awaited create-meeting call produced. */
  datatype CreateOutcome =
    | Created(message: Option<string>, meetingPresent: bool)
    | CreateThrew(errorField: Option<string>)

  /** The parent's callbacks. */
  datatype Callback = OnSuccess | OnClose

  /** A submit: the new state, the payloads sent to create-meeting, and the callbacks fired in order. */
  datatype SubmitStep = SubmitStep(state: FormState, calls: seq<MeetingData>, callbacks: seq<Callback>)

  /** `handleSubmit`, run to completion. */
  function HandleSubmit(s: FormState, now: int, parse: DateParser, outcome: CreateOutcome): (r: SubmitStep)
    ensures |r.calls| <= 1
    ensures r.calls == [] <==> ValidateForm(s.formData, now, parse).Some?
    ensures r.calls != [] ==> r.calls == [s.formData] && !r.state.loading
    ensures r.callbacks != [] ==> r.calls != [] && r.state.formData == EmptyMeeting
  {
    match ValidateForm(s.formData, now, parse)
    case Some(message) =>
      SubmitStep(s.(error := message), [], [])
    case None =>
      match outcome
      case Created(message, meetingPresent) =>
        if TruthyField(message) && meetingPresent then
          SubmitStep(FormState(EmptyMeeting, false, ""), [s.formData], [OnSuccess, OnClose])
        else
          SubmitStep(FormState(s.formData, false, CreateFailed), [s.formData], [])
      case CreateThrew(errorField) =>
        SubmitStep(FormState(s.formData, false, ErrorText(errorField, CreateFailedRetry)), [s.formData], [])
  }

  /** A form the validator rejects is not sent: the message is shown, nothing else moves. */
  lemma SubmitInvalid(s: FormState, now: int, parse: DateParser, outcome: CreateOutcome, message: string)
    requires ValidateForm(s.formData, now, parse) == Some(message)
    ensures var r := HandleSubmit(s, now, parse, outcome);
            && r.state == FormState(s.formData, s.loading, message)
            && r.calls == [] && r.callbacks == []
  {
  }

  /** A response with a message and a meeting resets the form, then fires `onSuccess` and `onClose`. */
  lemma SubmitCreated(s: FormState, now: int, parse: DateParser, message: string)
    requires ValidateForm(s.formData, now, parse).None? && message != ""
    ensures var r := HandleSubmit(s, now, parse, Created(Some(message), true));
            && r.state == FormState(EmptyMeeting, false, "")
            && r.calls == [s.formData] && r.callbacks == [OnSuccess, OnClose]
  {
  }

  /**
   * A sent form that did not produce a meeting keeps its data and shows an
   * error: the response's own complaint is not used, a thrown `error` field
   * is, and the two fallbacks differ.
   */
  lemma SubmitFailed(s: FormState, now: int, parse: DateParser, outcome: CreateOutcome)
    requires ValidateForm(s.formData, now, parse).None?
    requires !(outcome.Created? && TruthyField(outcome.message) && outcome.meetingPresent)
    ensures var r := HandleSubmit(s, now, parse, outcome);
            && r.state.formData == s.formData && !r.state.loading && r.callbacks == []
            && (outcome.Created? ==> r.state.error == CreateFailed)
            && (outcome.CreateThrew? && TruthyField(outcome.errorField) ==> r.state.error == outcome.errorField.value)
            && (outcome.CreateThrew? && !TruthyField(outcome.errorField) ==> r.state.error == CreateFailedRetry)
  {
  }

  /** Every submit leaves a message on screen unless it succeeded. */
  lemma SubmitShowsErrorUnlessSuccess(s: FormState, now: int, parse: DateParser, outcome: CreateOutcome)
    ensures var r := HandleSubmit(s, now, parse, outcome);
            r.callbacks == [] <==> Truthy(r.state.error)
  {
    match ValidateForm(s.formData, now, parse)
    case Some(m) =>
      assert Truthy(m);
      SubmitInvalid(s, now, parse, outcome, m);
    case None =>
      if outcome.Created? && TruthyField(outcome.message) && outcome.meetingPresent {
        SubmitCreated(s, now, parse, outcome.message.value);
      } else {
        SubmitFailed(s, now, parse, outcome);
      }
  }

  /** Right after a successful submit, submitting again is stopped by the validator. */
  lemma ResubmitAfterSuccessRejected(s: FormState, now: int, parse: DateParser, message: string,
                                     outcome: CreateOutcome)
    requires ValidateForm(s.formData, now, parse).None? && message != ""
    ensures var r := HandleSubmit(s, now, parse, Created(Some(message), true));
            var again := HandleSubmit(r.state, now, parse, outcome);
            again.calls == [] && again.state.error == NameRequired
  {
    SubmitCreated(s, now, parse, message);
    var r := HandleSubmit(s, now, parse, Created(Some(message), true));
    EmptyFormRejected(now, parse);
    SubmitInvalid(r.state, now, parse, outcome, NameRequired);
  }

  /** `handleClose`: ignored while a submit is in flight, otherwise a reset and `onClose`. */
  function HandleClose(s: FormState): (r: (FormState, seq<Callback>))
    ensures s.loading ==> r == (s, [])
    ensures !s.loading ==> r.1 == [OnClose] && r.0.formData == EmptyMeeting && r.0.error == ""
    ensures r.0.loading == s.loading
  {
    if s.loading then (s, [])
    else (FormState(EmptyMeeting, false, ""), [OnClose])
  }

  /** Closing twice is closing once, apart from the second `onClose`. */
  lemma CloseIdempotent(s: FormState)
    ensures HandleClose(HandleClose(s).0).0 == HandleClose(s).0
  {
  }

  /** Closing an idle dialog brings it back to the state it was first rendered in. */
  lemma CloseRestoresInitial(s: FormState)
    requires !s.loading
    ensures HandleClose(s).0 == InitialState
  {
  }
}
