/** The first questionnaire step: a profile form with seven text fields and an
    optional resume file, whose submit hands `{q1: formData}` to the wizard. */
module ProfileForm {
  import opened Common
  import opened JsValue

  /** The seven text fields of the form, in the order they are declared. */
  const TextFields: seq<string> :=
    ["currentPosition", "currentField", "age", "gender", "maritalStatus", "education", "workExperience"]

  /** The form as it starts: every text field empty and no resume. */
  function InitialForm(): (form: map<string, Value>)
    ensures form.Keys == set f | f in TextFields + ["resume"]
    ensures forall f :: f in TextFields ==> form[f] == Str("")
    ensures form["resume"] == Null
  {
    map["currentPosition" := Str(""), "currentField" := Str(""), "age" := Str(""),
        "gender" := Str(""), "maritalStatus" := Str(""), "education" := Str(""),
        "workExperience" := Str(""), "resume" := Null]
  }

  /** What a change event sets the named field to: the first chosen file for a file
      input (whose `files` list is always present, so an empty choice gives
      `undefined`), the typed value for any other input (whose `files` is null). */
  function ChangedValue(value: string, files: Option<seq<string>>): (v: Value)
    ensures files.None? ==> v == Str(value)
    ensures files.Some? && files.value != [] ==> v == File(files.value[0])
    ensures files == Some([]) ==> v == Undefined
  {
    match files
    case None => Str(value)
    case Some(names) => if names != [] then File(names[0]) else Undefined
  }

  class Form {
    var formData: map<string, Value>

    constructor ()
      ensures formData == InitialForm()
    {
      formData := InitialForm();
    }

    /** The hydration effect: when `previousAnswers.q1` is present (truthy) the whole
        form is replaced by it; otherwise the form is left alone. */
    method Hydrate(previousAnswers: Value)
      modifies this
      ensures var q1 := Prop(previousAnswers, "q1");
        if Truthy(previousAnswers) && Truthy(q1.value) && q1.value.Obj?
        then formData == q1.value.fields
        else formData == old(formData)
    {
      if Truthy(previousAnswers) {
        var q1 := Prop(previousAnswers, "q1");
        if Truthy(q1.value) && q1.value.Obj? {
          formData := q1.value.fields;
        }
      }
    }

    /** A change event on the input called `name`: only that field changes. */
    method HandleChange(name: string, value: string, files: Option<seq<string>>)
      modifies this
      ensures name in formData && formData[name] == ChangedValue(value, files)
      ensures formData.Keys == old(formData).Keys + {name}
      ensures forall f :: f in old(formData) && f != name ==> formData[f] == old(formData)[f]
    {
      formData := formData[name := ChangedValue(value, files)];
    }

    /** The submit handler: a copy of the form in which `resume` is the file chosen
        in the file input, or absent when none is chosen; the wizard receives
        `{q1: payload}`, once. */
    method Submit(chosenFile: Option<string>) returns (stepData: Value)
      ensures stepData.Obj? && stepData.fields.Keys == {"q1"} && stepData.fields["q1"].Obj?
      ensures var payload := stepData.fields["q1"].fields;
        && (forall f :: f != "resume" ==> (f in payload <==> f in formData))
        && (forall f :: f != "resume" && f in formData ==> payload[f] == formData[f])
        && ("resume" in payload <==> chosenFile.Some?)
        && (chosenFile.Some? ==> payload["resume"] == File(chosenFile.value))
    {
      var payload := formData;
      if chosenFile.Some? {
        payload := payload["resume" := File(chosenFile.value)];
      } else {
        payload := payload - {"resume"};
      }
      stepData := Obj(map["q1" := Obj(payload)]);
    }
  }
}
