/** The application shell: the signed-in user, their status row, and the
    questionnaire wizard home -> q1 -> q2 -> q3 -> q4 -> finished that collects the
    answers and saves them with one upsert. Database, storage and authentication
    calls are parameters saying how each call ended. */
module Wizard {
  import opened Common
  import opened Text
  import opened JsValue
  import opened WordCounting

  datatype Step = Home | Q1 | Q2 | Q3 | Q4 | Finished

  function StepName(step: Step): string {
    match step
    case Home => "home"
    case Q1 => "q1"
    case Q2 => "q2"
    case Q3 => "q3"
    case Q4 => "q4"
    case Finished => "finished"
  }

  /** Position of a step along the questionnaire. */
  function Rank(step: Step): nat {
    match step
    case Home => 0
    case Q1 => 1
    case Q2 => 2
    case Q3 => 3
    case Q4 => 4
    case Finished => 5
  }

  /** The step after an accepted submission: one step forward from q1..q4; the
      chain of conditionals sends every other step to finished as well. */
  function NextStep(step: Step): (next: Step)
    ensures step in {Q1, Q2, Q3, Q4} ==> Rank(next) == Rank(step) + 1
    ensures step !in {Q1, Q2, Q3} ==> next == Finished
  {
    if step == Q1 then Q2 else if step == Q2 then Q3 else if step == Q3 then Q4 else Finished
  }

  /** The step Back leads to: one step back from q2..q4, home from every other step. */
  function PrevStep(step: Step): (prev: Step)
    ensures step in {Q2, Q3, Q4} ==> Rank(prev) + 1 == Rank(step) && NextStep(prev) == step
    ensures step !in {Q2, Q3, Q4} ==> prev == Home
  {
    if step == Q2 then Q1 else if step == Q3 then Q2 else if step == Q4 then Q3 else Home
  }

  // Step 1: required fields

  /** The fields q1 must carry, checked in this order. */
  const RequiredFields: seq<string> :=
    ["age", "currentField", "currentPosition", "gender", "maritalStatus", "education", "workExperience"]

  /** `!v && v !== 0`: falsy, and not the number 0. */
  predicate IsMissing(v: Value) {
    !Truthy(v) && v != Num(0)
  }

  /** The error the check of one field throws, if any: reading a field of
      `undefined`/`null` throws a TypeError, a missing value "<field> is required". */
  function FieldError(q1Data: Value, field: string): Option<string> {
    match Prop(q1Data, field)
    case Err(message) => Some(message)
    case Ok(v) => if IsMissing(v) then Some(field + " is required") else None
  }

  /** The error of the first failing field, in list order. */
  function FirstMissing(q1Data: Value, fields: seq<string>): (err: Option<string>)
    ensures err.None? <==> forall i :: 0 <= i < |fields| ==> FieldError(q1Data, fields[i]).None?
    ensures err.Some? ==> exists i :: (0 <= i < |fields| && err == FieldError(q1Data, fields[i])
      && forall j :: 0 <= j < i ==> FieldError(q1Data, fields[j]).None?)
    decreases |fields|
  {
    if fields == [] then None
    else if FieldError(q1Data, fields[0]).Some? then FieldError(q1Data, fields[0])
    else
      var rest := FirstMissing(q1Data, fields[1..]);
      assert forall i :: 1 <= i < |fields| ==> fields[i] == fields[1..][i - 1];
      rest
  }

  /** The validation loop over the required fields; it stops at the first failure. */
  method ValidateRequired(q1Data: Value) returns (err: Option<string>)
    ensures err == FirstMissing(q1Data, RequiredFields)
  {
    for i := 0 to |RequiredFields|
      invariant FirstMissing(q1Data, RequiredFields) == FirstMissing(q1Data, RequiredFields[i..])
    {
      assert RequiredFields[i..][1..] == RequiredFields[i + 1..];
      var fieldError := FieldError(q1Data, RequiredFields[i]);
      if fieldError.Some? {
        return fieldError;
      }
    }
    return None;
  }

  // Step 1: resume upload

  /** The storage name of an uploaded resume: a random number, a dot, and the text
      after the last dot of the original file name (all of it when it has none). */
  function ResumeFileName(randomName: string, originalName: string): (fileName: string)
    ensures |fileName| > |randomName|
    ensures var ext := fileName[|randomName| + 1..];
      && fileName[..|randomName| + 1] == randomName + "."
      && '.' !in ext
      && |ext| <= |originalName| && ext == originalName[|originalName| - |ext|..]
      && ('.' in originalName ==> originalName[|originalName| - |ext| - 1] == '.')
      && ('.' !in originalName ==> ext == originalName)
  {
    var ext := LastPiece(originalName, '.');
    var fileName := randomName + "." + ext;
    assert fileName[|randomName| + 1..] == ext;
    fileName
  }

  /** How the resume-related calls of one submission end. */
  datatype Effects = Effects(
    randomName: string,          // the `Math.random()` part of the file name
    upload: Outcome,             // storage upload
    publicUrl: Result<string>,   // public URL lookup
    upsert: Outcome,             // the user_info upsert
    statusUpdate: Outcome)       // the user_status update to 1

  /** The file name of the resume in `q1Data`, or the TypeError of `resume.name.split`. */
  function ResumeName(resume: Value): Result<string>
    requires !resume.Undefined? && !resume.Null?
  {
    match Prop(resume, "name").value
    case Str(name) => Ok(name)
    case Undefined => Err(TypeErrorMessage("undefined", "split"))
    case Null => Err(TypeErrorMessage("null", "split"))
    case _ => Err("q1Data.resume.name.split is not a function")
  }

  /** The resume URL stored with the profile: null without a resume, the public URL
      of the upload otherwise; an error stops the step. */
  function ResumeUrl(q1Data: Value, io: Effects): (r: Result<Value>)
    requires !q1Data.Undefined? && !q1Data.Null?
    ensures !Truthy(Prop(q1Data, "resume").value) ==> r == Ok(Null)
    ensures Truthy(Prop(q1Data, "resume").value) && r.Ok? ==>
      io.upload.Done? && io.publicUrl.Ok? && r.value == Str(io.publicUrl.value)
    ensures var resume := Prop(q1Data, "resume").value;
      Truthy(resume) && ResumeName(resume).Err? ==> r == Err(ResumeName(resume).message)
    ensures var resume := Prop(q1Data, "resume").value;
      Truthy(resume) && ResumeName(resume).Ok? && io.upload.Failed? ==> r == Err(io.upload.message)
    ensures var resume := Prop(q1Data, "resume").value;
      Truthy(resume) && ResumeName(resume).Ok? && io.upload.Done? && io.publicUrl.Err? ==>
        r == Err(io.publicUrl.message)
    ensures var resume := Prop(q1Data, "resume").value;
      Truthy(resume) && ResumeName(resume).Ok? && io.upload.Done? && io.publicUrl.Ok? ==>
        r == Ok(Str(io.publicUrl.value))
  {
    var resume := Prop(q1Data, "resume").value;
    if !Truthy(resume) then Ok(Null)
    else match ResumeName(resume)
      case Err(m) => Err(m)
      case Ok(_) =>
        if io.upload.Failed? then Err(io.upload.message)
        else if io.publicUrl.Err? then Err(io.publicUrl.message)
        else Ok(Str(io.publicUrl.value))
  }

  // Step 1: the profile keys

  const ProfileKeys: set<string> :=
    {"user_id", "age", "field_of_work", "current_position", "gender", "marital_status",
     "education", "work_experience", "resume"}

  /** The profile as the q1 step reads it out of the form: `age` through `parseInt`,
      every other field as entered. */
  datatype Profile = Profile(age: Value, currentField: Value, currentPosition: Value,
    gender: Value, maritalStatus: Value, education: Value, workExperience: Value)

  function ReadProfile(q1Data: Value): Profile
    requires !q1Data.Undefined? && !q1Data.Null?
  {
    Profile(ParseInt(Prop(q1Data, "age").value), Prop(q1Data, "currentField").value,
      Prop(q1Data, "currentPosition").value, Prop(q1Data, "gender").value,
      Prop(q1Data, "maritalStatus").value, Prop(q1Data, "education").value,
      Prop(q1Data, "workExperience").value)
  }

  /** The answers after q1: the nine profile keys overwrite, other keys stay. */
  function ProfileAnswers(prior: map<string, Value>, userId: string, p: Profile, resumeUrl: Value)
    : (r: map<string, Value>)
    ensures r.Keys == prior.Keys + ProfileKeys
    ensures forall k :: k in prior && k !in ProfileKeys ==> r[k] == prior[k]
    ensures r["user_id"] == Str(userId) && r["resume"] == resumeUrl && r["age"] == p.age
    ensures r["field_of_work"] == p.currentField && r["current_position"] == p.currentPosition
    ensures r["gender"] == p.gender && r["marital_status"] == p.maritalStatus
    ensures r["education"] == p.education && r["work_experience"] == p.workExperience
  {
    prior["user_id" := Str(userId)]["age" := p.age]["field_of_work" := p.currentField]
      ["current_position" := p.currentPosition]["gender" := p.gender]
      ["marital_status" := p.maritalStatus]["education" := p.education]
      ["work_experience" := p.workExperience]["resume" := resumeUrl]
  }

  /** The age the profile stores is the number typed into the age input. */
  lemma ProfileAge(q1Data: Value, n: nat)
    requires !q1Data.Undefined? && !q1Data.Null? && Prop(q1Data, "age").value == Str(NatToString(n))
    ensures ReadProfile(q1Data).age == Num(n)
  {
    ParseIntNumeral(n);
  }

  // Steps 2 to 4: free text

  /** The answer of a free-text step: `stepData[key] || stepData`, which must be a
      string that is not blank after trimming; the trimmed text is what is kept. */
  function TextAnswer(stepData: Value, key: string): (r: Result<string>)
    ensures r.Ok? <==> (Prop(stepData, key).Ok?
      && Or(Prop(stepData, key).value, stepData).Str?
      && !AllSpace(Or(Prop(stepData, key).value, stepData).s, IsJsSpace))
    ensures r.Ok? ==> r.value == Strip(Or(Prop(stepData, key).value, stepData).s, IsJsSpace)
    ensures r.Ok? ==> r.value != "" && !IsJsSpace(r.value[0]) && !IsJsSpace(r.value[|r.value| - 1])
  {
    match Prop(stepData, key)
    case Err(m) => Err(m)
    case Ok(v) =>
      var answer := Or(v, stepData);
      if !Truthy(answer) || !answer.Str? || Strip(answer.s, IsJsSpace) == "" then
        Err("Answer for " + key + " is required")
      else Ok(Strip(answer.s, IsJsSpace))
  }

  /** What `handleNext` commits to `answers` for the current step, or the message of
      the error thrown before the commit. */
  function StepAnswers(step: Step, prior: map<string, Value>, user: Option<string>,
                       stepData: Value, io: Effects): (r: Result<map<string, Value>>)
    ensures step !in {Q1, Q2, Q3, Q4} ==> r == Ok(prior)
    ensures step in {Q2, Q3, Q4} ==>
      r == match TextAnswer(stepData, StepName(step))
           case Ok(text) => Ok(prior[StepName(step) := Str(text)])
           case Err(m) => Err(m)
    ensures step == Q1 && r.Ok? ==>
      && Prop(stepData, "q1").Ok?
      && FirstMissing(Prop(stepData, "q1").value, RequiredFields).None?
      && user.Some?
      && r.value.Keys == prior.Keys + ProfileKeys
      && forall k :: k in prior && k !in ProfileKeys ==> r.value[k] == prior[k]
    ensures step == Q1 && Prop(stepData, "q1").Err? ==> r == Err(Prop(stepData, "q1").message)
    ensures (step == Q1 && Prop(stepData, "q1").Ok?
             && FirstMissing(Prop(stepData, "q1").value, RequiredFields).Some?) ==>
        r == Err(FirstMissing(Prop(stepData, "q1").value, RequiredFields).value)
    ensures (step == Q1 && Prop(stepData, "q1").Ok?
             && FirstMissing(Prop(stepData, "q1").value, RequiredFields).None?) ==>
      var q1Data := Prop(stepData, "q1").value;
      && !q1Data.Undefined? && !q1Data.Null?
      && (user.Some? && ResumeUrl(q1Data, io).Ok? ==> r.Ok?)
      && (ResumeUrl(q1Data, io).Err? ==> r == Err(ResumeUrl(q1Data, io).message))
      && (user.None? && ResumeUrl(q1Data, io).Ok? ==> r == Err(TypeErrorMessage("null", "id")))
    ensures step == Q1 && r.Ok? ==>
      var q1Data := Prop(stepData, "q1").value;
      && !q1Data.Undefined? && !q1Data.Null?
      && ResumeUrl(q1Data, io).Ok?
      && r.value == ProfileAnswers(prior, user.value, ReadProfile(q1Data), ResumeUrl(q1Data, io).value)
  {
    match step
    case Q1 =>
      (match Prop(stepData, "q1")
       case Err(m) => Err(m)
       case Ok(q1Data) =>
         match FirstMissing(q1Data, RequiredFields)
         case Some(m) => Err(m)
         case None =>
           assert FieldError(q1Data, RequiredFields[0]).None?;
           match ResumeUrl(q1Data, io)
           case Err(m) => Err(m)
           case Ok(url) =>
             if user.None? then Err(TypeErrorMessage("null", "id"))
             else Ok(ProfileAnswers(prior, user.value, ReadProfile(q1Data), url)))
    case Q2 => TextStep(prior, stepData, "q2")
    case Q3 => TextStep(prior, stepData, "q3")
    case Q4 => TextStep(prior, stepData, "q4")
    case _ => Ok(prior)
  }

  function TextStep(prior: map<string, Value>, stepData: Value, key: string): Result<map<string, Value>> {
    match TextAnswer(stepData, key)
    case Ok(text) => Ok(prior[key := Str(text)])
    case Err(m) => Err(m)
  }

  /** The keys the wizard ever writes into `answers`; "q1" is not among them. */
  const AnswerKeys: set<string> := ProfileKeys + {"q2", "q3", "q4"}

  /** The keys of the free-text answers. */
  const TextKeys: set<string> := {"q2", "q3", "q4"}

  /** What `answers` can hold: only the wizard's own keys, and a string under
      each free-text key. */
  predicate WellFormedAnswers(answers: map<string, Value>) {
    && answers.Keys <= AnswerKeys
    && forall k :: k in answers && k in TextKeys ==> answers[k].Str?
  }

  /** Every accepted step keeps the answers well formed, whatever was submitted. */
  lemma StepAnswersWellFormed(step: Step, prior: map<string, Value>, user: Option<string>,
                              stepData: Value, io: Effects)
    requires WellFormedAnswers(prior)
    ensures var r := StepAnswers(step, prior, user, stepData, io);
      r.Ok? ==> WellFormedAnswers(r.value)
  {
    match step
    case Q1 =>
      var q1 := Prop(stepData, "q1");
      if q1.Ok? && FirstMissing(q1.value, RequiredFields).None? {
        assert FieldError(q1.value, RequiredFields[0]).None?;
        var url := ResumeUrl(q1.value, io);
        if url.Ok? && user.Some? {
          ProfileAnswersWellFormed(prior, user.value, ReadProfile(q1.value), url.value);
        }
      }
    case _ =>
  }

  /** The profile keys are not free-text keys, so a q1 merge keeps the answers well formed. */
  lemma ProfileAnswersWellFormed(prior: map<string, Value>, userId: string, p: Profile, resumeUrl: Value)
    requires WellFormedAnswers(prior)
    ensures WellFormedAnswers(ProfileAnswers(prior, userId, p, resumeUrl))
  {
    var r := ProfileAnswers(prior, userId, p, resumeUrl);
    forall k | k in r && k in TextKeys
      ensures r[k].Str?
    {
      assert k !in ProfileKeys;
    }
  }

  /** The `previousAnswers` each question receives: q1 the whole answers object,
      q2 to q4 their own stored answer or the empty string. */
  function PreviousAnswers(step: Step, answers: map<string, Value>): (v: Value)
    requires step in {Q1, Q2, Q3, Q4}
    ensures step == Q1 ==> v == Obj(answers)
    ensures step != Q1 && StepName(step) !in answers ==> v == Str("")
  {
    if step == Q1 then Obj(answers)
    else
      var stored := Prop(Obj(answers), StepName(step)).value;
      Or(stored, Str(""))
  }

  /** Going back never refills a question from the answers: q1 looks for a `q1`
      property, which the answers never hold, and q2 to q4 are handed a string,
      whose property named by the key is undefined. */
  lemma PreviousAnswersNeverHydrate(step: Step, answers: map<string, Value>, key: string)
    requires step in {Q1, Q2, Q3, Q4} && WellFormedAnswers(answers) && key != "length"
    ensures step == Q1 ==> !Truthy(Prop(PreviousAnswers(step, answers), "q1").value)
    ensures step != Q1 ==> (PreviousAnswers(step, answers).Str?
      && !Truthy(Prop(PreviousAnswers(step, answers), key).value))
  {
    if step == Q1 {
      assert "q1" !in AnswerKeys;
    } else {
      var name := StepName(step);
      assert name in TextKeys;
    }
  }

  /** A q3 (or q4) answer the question component lets through is always accepted
      here, and stored trimmed. */
  lemma LongAnswerAccepted(step: Step, prior: map<string, Value>, user: Option<string>,
                           answer: string, io: Effects)
    requires step in {Q3, Q4}
    requires 10 <= Words(answer) <= 200
    ensures StepAnswers(step, prior, user, Obj(map[StepName(step) := Str(answer)]), io)
      == Ok(prior[StepName(step) := Str(Strip(answer, IsJsSpace))])
  {
    WordCountIsWords(answer);
    WordCountZeroIffBlank(answer);
    var stepData := Obj(map[StepName(step) := Str(answer)]);
    assert Prop(stepData, StepName(step)) == Ok(Str(answer));
  }

  /** The validation and merging part of `handleNext`, step by step as the handler
      runs it; `uploadedAs` is the storage name a resume was uploaded under. */
  method StepAnswersOf(step: Step, prior: map<string, Value>, user: Option<string>,
                       stepData: Value, io: Effects)
    returns (r: Result<map<string, Value>>, uploadedAs: Option<string>)
    ensures r == StepAnswers(step, prior, user, stepData, io)
    ensures uploadedAs.Some? ==> step == Q1
  {
    uploadedAs := None;
    if step == Q1 {
      r, uploadedAs := ProfileStep(prior, user, stepData, io);
    } else if step == Q2 || step == Q3 || step == Q4 {
      var key := StepName(step);
      var answer := TextAnswer(stepData, key);
      if answer.Err? {
        r := Err(answer.message);
      } else {
        r := Ok(prior[key := Str(answer.value)]);
      }
    } else {
      r := Ok(prior);
    }
  }

  /** The q1 branch of `handleNext`: the required-field loop, the resume upload and
      the profile keys. A resume is uploaded only after the fields are checked, and
      the user id is read only after the upload. */
  method ProfileStep(prior: map<string, Value>, user: Option<string>, stepData: Value, io: Effects)
    returns (r: Result<map<string, Value>>, uploadedAs: Option<string>)
    ensures r == StepAnswers(Q1, prior, user, stepData, io)
    ensures uploadedAs.Some? ==>
      && Prop(stepData, "q1").Ok? && FirstMissing(Prop(stepData, "q1").value, RequiredFields).None?
      && var resume := Prop(Prop(stepData, "q1").value, "resume").value;
      && Truthy(resume) && ResumeName(resume).Ok?
      && uploadedAs.value == ResumeFileName(io.randomName, ResumeName(resume).value)
    ensures (Prop(stepData, "q1").Ok? && FirstMissing(Prop(stepData, "q1").value, RequiredFields).None?
             && Truthy(Prop(Prop(stepData, "q1").value, "resume").value)
             && ResumeName(Prop(Prop(stepData, "q1").value, "resume").value).Ok?) ==>
      uploadedAs.Some?
  {
    uploadedAs := None;
    var q1 := Prop(stepData, "q1");
    if q1.Err? {
      return Err(q1.message), None;
    }
    var q1Data := q1.value;
    var missing := ValidateRequired(q1Data);
    if missing.Some? {
      return Err(missing.value), None;
    }
    assert FieldError(q1Data, RequiredFields[0]).None?;
    var resumeUrl := Null;
    var resume := Prop(q1Data, "resume").value;
    if Truthy(resume) {
      var name := ResumeName(resume);
      if name.Err? {
        return Err(name.message), None;
      }
      uploadedAs := Some(ResumeFileName(io.randomName, name.value));
      if io.upload.Failed? {
        return Err(io.upload.message), uploadedAs;
      }
      if io.publicUrl.Err? {
        return Err(io.publicUrl.message), uploadedAs;
      }
      resumeUrl := Str(io.publicUrl.value);
    }
    if user.None? {
      return Err(TypeErrorMessage("null", "id")), uploadedAs;
    }
    r := Ok(ProfileAnswers(prior, user.value, ReadProfile(q1Data), resumeUrl));
  }

  class App {
    var user: Option<string>        // the signed-in user's id
    var userStatus: Option<int>
    var currentStep: Step
    var answers: map<string, Value>
    var loading: bool
    var error: Option<string>

    /** The answers hold only the wizard's own keys, with strings under q2 to q4. */
    ghost predicate Valid()
      reads this
    {
      WellFormedAnswers(answers)
    }

    /** `if (error)`: an error is shown when there is one and its message is not
        the empty string, which is falsy. */
    predicate ErrorShown()
      reads this
    {
      error.Some? && error.value != ""
    }

    /** What the shell renders: a loading notice, the error with its Dismiss button,
        the sign-in form, or the main page with the Sign Out button, a Back button
        on the question steps and at most one panel. */
    function Render(): (s: Screen)
      reads this
      ensures s == Loading <==> loading
      ensures s.ErrorView? <==> !loading && ErrorShown()
      ensures s.ErrorView? ==> s.message == error.value
      ensures s.Main? <==> !loading && !ErrorShown() && user.Some?
      ensures s.Main? ==> (s.back <==> currentStep in {Q1, Q2, Q3, Q4})
      ensures s.Main? ==> (s.panel.Some? && s.panel.value.QuestionPanel? <==> currentStep in {Q1, Q2, Q3, Q4})
      ensures s.Main? && s.panel.Some? && s.panel.value.QuestionPanel? ==> s.panel.value.step == currentStep
      ensures s.Main? ==> (s.panel == Some(ThankYou) <==> currentStep == Finished)
      ensures s.Main? ==> (s.panel == Some(StartPanel) <==> currentStep == Home && userStatus == Some(0))
      ensures s.Main? ==> (s.panel == Some(RequestPlanPanel) <==> currentStep == Home && userStatus == Some(1))
      ensures s.Main? ==> (s.panel == Some(PlanPanel) <==> currentStep == Home && userStatus == Some(2))
    {
      if loading then Loading
      else if ErrorShown() then ErrorView(error.value)
      else if user.None? then SignIn
      else
        var panel :=
          if currentStep == Finished then Some(ThankYou)
          else if currentStep != Home then Some(QuestionPanel(currentStep))
          else if userStatus == Some(0) then Some(StartPanel)
          else if userStatus == Some(1) then Some(RequestPlanPanel)
          else if userStatus == Some(2) then Some(PlanPanel)
          else None;
        Main(panel, currentStep != Home && currentStep != Finished)
    }

    /** The initial state: nobody signed in, on the home step, no answers, loading. */
    constructor ()
      ensures user == None && userStatus == None && currentStep == Home
      ensures answers == map[] && loading && error == None
    {
      user := None;
      userStatus := None;
      currentStep := Home;
      answers := map[];
      loading := true;
      error := None;
    }

    /** Starting the questionnaire from the home page. */
    method StartCareerPlanning()
      modifies this
      ensures currentStep == Q1
      ensures user == old(user) && userStatus == old(userStatus) && answers == old(answers)
      ensures loading == old(loading) && error == old(error)
    {
      currentStep := Q1;
    }

    /** The Back button. */
    method HandleBack()
      modifies this
      ensures currentStep == PrevStep(old(currentStep))
      ensures user == old(user) && userStatus == old(userStatus) && answers == old(answers)
      ensures loading == old(loading) && error == old(error)
    {
      currentStep := PrevStep(currentStep);
    }

    /** Dismissing the error view. */
    method DismissError()
      modifies this
      ensures error == None
      ensures user == old(user) && userStatus == old(userStatus) && currentStep == old(currentStep)
      ensures answers == old(answers) && loading == old(loading)
    {
      error := None;
    }

    /** Setting the status row to a new value; a failure (or no signed-in user) is
        reported in `error` and the status stays. */
    method UpdateUserStatus(newStatus: int, update: Outcome)
      modifies this
      ensures user.Some? && update.Done? ==> userStatus == Some(newStatus) && error == old(error)
      ensures user.None? ==> userStatus == old(userStatus) && error == Some(TypeErrorMessage("null", "id"))
      ensures user.Some? && update.Failed? ==> userStatus == old(userStatus) && error == Some(update.message)
      ensures user == old(user) && currentStep == old(currentStep) && answers == old(answers)
      ensures loading == old(loading)
    {
      if user.None? {
        error := Some(TypeErrorMessage("null", "id"));
      } else if update.Failed? {
        error := Some(update.message);
      } else {
        userStatus := Some(newStatus);
      }
    }

    /** Requesting a plan raises the status to 2 (same update, same error handling). */
    method RequestCareerPlan(update: Outcome)
      modifies this
      ensures user.Some? && update.Done? ==> userStatus == Some(2) && error == old(error)
      ensures !(user.Some? && update.Done?) ==> userStatus == old(userStatus) && error.Some?
      ensures user == old(user) && currentStep == old(currentStep) && answers == old(answers)
      ensures loading == old(loading)
    {
      UpdateUserStatus(2, update);
    }

    /** `handleNext`: validate and merge the step's data, commit the answers, and on
        the last step upsert them and raise the status to 1 before moving on. */
    method HandleNext(stepData: Value, io: Effects) returns (uploadedAs: Option<string>, upserted: Option<map<string, Value>>)
      modifies this
      ensures var r := StepAnswers(old(currentStep), old(answers), old(user), stepData, io);
        && (r.Err? ==>
              answers == old(answers) && currentStep == old(currentStep)
              && userStatus == old(userStatus) && error == Some(r.message) && upserted == None)
        && (r.Ok? ==> answers == r.value)
        && (r.Ok? && NextStep(old(currentStep)) != Finished ==>
              currentStep == NextStep(old(currentStep)) && userStatus == old(userStatus)
              && error == old(error) && upserted == None)
        && (r.Ok? && NextStep(old(currentStep)) == Finished ==> upserted == Some(r.value))
        && (r.Ok? && NextStep(old(currentStep)) == Finished && io.upsert.Failed? ==>
              currentStep == old(currentStep) && userStatus == old(userStatus)
              && error == Some(io.upsert.message))
        && (r.Ok? && NextStep(old(currentStep)) == Finished && io.upsert.Done? ==>
              currentStep == Finished
              && (old(user).Some? && io.statusUpdate.Done? ==> userStatus == Some(1) && error == old(error))
              && (old(user).Some? && io.statusUpdate.Failed? ==>
                    userStatus == old(userStatus) && error == Some(io.statusUpdate.message))
              && (old(user).None? ==> userStatus == old(userStatus) && error.Some?))
      ensures uploadedAs.Some? ==> old(currentStep) == Q1
      ensures user == old(user) && loading == old(loading)
      ensures old(Valid()) ==> Valid()
    {
      var r;
      if Valid() {
        StepAnswersWellFormed(currentStep, answers, user, stepData, io);
      }
      r, uploadedAs := StepAnswersOf(currentStep, answers, user, stepData, io);
      upserted := Commit(r, io);
    }

    /** The rest of `handleNext` once the step's answers are known: a thrown error is
        shown; otherwise the answers are committed, and on the last step upserted
        before the status rises to 1 and the wizard finishes. */
    method Commit(r: Result<map<string, Value>>, io: Effects) returns (upserted: Option<map<string, Value>>)
      modifies this
      ensures r.Err? ==>
        answers == old(answers) && currentStep == old(currentStep)
        && userStatus == old(userStatus) && error == Some(r.message) && upserted == None
      ensures r.Ok? ==> answers == r.value
      ensures r.Ok? && NextStep(old(currentStep)) != Finished ==>
        currentStep == NextStep(old(currentStep)) && userStatus == old(userStatus)
        && error == old(error) && upserted == None
      ensures r.Ok? && NextStep(old(currentStep)) == Finished ==> upserted == Some(r.value)
      ensures r.Ok? && NextStep(old(currentStep)) == Finished && io.upsert.Failed? ==>
        currentStep == old(currentStep) && userStatus == old(userStatus)
        && error == Some(io.upsert.message)
      ensures r.Ok? && NextStep(old(currentStep)) == Finished && io.upsert.Done? ==>
        && currentStep == Finished
        && (user.Some? && io.statusUpdate.Done? ==> userStatus == Some(1) && error == old(error))
        && (user.Some? && io.statusUpdate.Failed? ==>
              userStatus == old(userStatus) && error == Some(io.statusUpdate.message))
        && (user.None? ==> userStatus == old(userStatus) && error.Some?)
      ensures user == old(user) && loading == old(loading)
    {
      upserted := None;
      if r.Err? {
        error := Some(r.message);
        return;
      }
      answers := r.value;
      var nextStep := NextStep(currentStep);
      if nextStep == Finished {
        upserted := Some(r.value);
        if io.upsert.Failed? {
          error := Some(io.upsert.message);
          return;
        }
        UpdateUserStatus(1, io.statusUpdate);
      }
      currentStep := nextStep;
    }

    /** Signing out: on success user, status, step and answers are all reset; on
        failure only the error changes. Loading ends either way. */
    method HandleSignOut(signOut: Outcome)
      modifies this
      ensures signOut.Done? ==>
        user == None && userStatus == None && currentStep == Home && answers == map[]
        && error == old(error)
      ensures signOut.Failed? ==>
        user == old(user) && userStatus == old(userStatus) && currentStep == old(currentStep)
        && answers == old(answers) && error == Some(signOut.message)
      ensures !loading
    {
      loading := true;
      if signOut.Failed? {
        error := Some(signOut.message);
      } else {
        user := None;
        userStatus := None;
        currentStep := Home;
        answers := map[];
      }
      loading := false;
    }

    /** Reading the user's status row. A not-found answer creates a row with status 0
        and adopts it; any other error is reported and the status stays. */
    method FetchUserStatus(lookup: StatusLookup, insert: Outcome)
      modifies this
      ensures lookup.Row? ==> userStatus == Some(lookup.status) && error == old(error)
      ensures lookup.LookupFailed? && lookup.code == NotFoundCode && insert.Done? ==>
        userStatus == Some(0) && error == old(error)
      ensures lookup.LookupFailed? && lookup.code == NotFoundCode && insert.Failed? ==>
        userStatus == old(userStatus) && error == Some(insert.message)
      ensures lookup.LookupFailed? && lookup.code != NotFoundCode ==>
        userStatus == old(userStatus) && error == Some(lookup.message)
      ensures user == old(user) && currentStep == old(currentStep) && answers == old(answers)
      ensures loading == old(loading)
    {
      match lookup
      case Row(status) =>
        userStatus := Some(status);
      case LookupFailed(code, message) =>
        if code == NotFoundCode {
          CreateUserStatus(insert);
        } else {
          error := Some(message);
        }
    }

    /** Inserting a status row with status 0 and adopting it. */
    method CreateUserStatus(insert: Outcome)
      modifies this
      ensures insert.Done? ==> userStatus == Some(0) && error == old(error)
      ensures insert.Failed? ==> userStatus == old(userStatus) && error == Some(insert.message)
      ensures user == old(user) && currentStep == old(currentStep) && answers == old(answers)
      ensures loading == old(loading)
    {
      if insert.Failed? {
        error := Some(insert.message);
      } else {
        userStatus := Some(0);
      }
    }

    /** A sign-in or sign-out notification: adopt the session's user and read its
        status, or clear user and status; loading ends either way. */
    method OnAuthStateChange(session: Option<string>, lookup: StatusLookup, insert: Outcome)
      modifies this
      ensures user == session
      ensures session.None? ==> userStatus == None && error == old(error)
      ensures session.Some? && lookup.Row? ==>
        userStatus == Some(lookup.status) && error == old(error)
      ensures session.Some? && lookup.LookupFailed? && lookup.code == NotFoundCode && insert.Done? ==>
        userStatus == Some(0) && error == old(error)
      ensures session.Some? && lookup.LookupFailed? && lookup.code == NotFoundCode && insert.Failed? ==>
        userStatus == old(userStatus) && error == Some(insert.message)
      ensures session.Some? && lookup.LookupFailed? && lookup.code != NotFoundCode ==>
        userStatus == old(userStatus) && error == Some(lookup.message)
      ensures currentStep == old(currentStep) && answers == old(answers)
      ensures !loading
    {
      if session.Some? {
        user := session;
        FetchUserStatus(lookup, insert);
      } else {
        user := None;
        userStatus := None;
      }
      loading := false;
    }

    /** The session check at start-up: like a notification, except that an error
        from the session call is reported and changes nothing else. */
    method CheckSession(session: Result<Option<string>>, lookup: StatusLookup, insert: Outcome)
      modifies this
      ensures session.Err? ==>
        user == old(user) && userStatus == old(userStatus) && error == Some(session.message)
      ensures session.Ok? ==> user == session.value
      ensures session.Ok? && session.value.None? ==> userStatus == None && error == old(error)
      ensures session.Ok? && session.value.Some? && lookup.Row? ==>
        userStatus == Some(lookup.status) && error == old(error)
      ensures session.Ok? && session.value.Some? && lookup.LookupFailed? && lookup.code == NotFoundCode && insert.Done? ==>
        userStatus == Some(0) && error == old(error)
      ensures session.Ok? && session.value.Some? && lookup.LookupFailed? && lookup.code == NotFoundCode && insert.Failed? ==>
        userStatus == old(userStatus) && error == Some(insert.message)
      ensures session.Ok? && session.value.Some? && lookup.LookupFailed? && lookup.code != NotFoundCode ==>
        userStatus == old(userStatus) && error == Some(lookup.message)
      ensures currentStep == old(currentStep) && answers == old(answers)
      ensures !loading
    {
      loading := true;
      if session.Err? {
        error := Some(session.message);
      } else if session.value.Some? {
        user := session.value;
        FetchUserStatus(lookup, insert);
      } else {
        user := None;
        userStatus := None;
      }
      loading := false;
    }
  }

  /** What the main page shows below the buttons. */
  datatype Panel = StartPanel | QuestionPanel(step: Step) | ThankYou | RequestPlanPanel | PlanPanel

  datatype Screen = Loading | ErrorView(message: string) | SignIn | Main(panel: Option<Panel>, back: bool)

  /** The error code the database returns when a single-row query finds no row. */
  const NotFoundCode := "PGRST116"

  /** How reading the status row ended: the row's status, or an error with its code. */
  datatype StatusLookup = Row(status: int) | LookupFailed(code: string, message: string)
}
