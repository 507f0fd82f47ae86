/**
 * The study form of `src/Home.jsx`: its state (the form fields and the error
 * map), the three validation rules, the PDF file picker, and the submission
 * that forwards the form together with a question count.
 */
module Home {
  import opened Wrappers
  import opened JsString

  /** A browser `File`, seen only through its mime type. */
  datatype File = File(mimeType: string)

  const PdfMimeType := "application/pdf"

  /** The `formData` record. */
  datatype FormData = FormData(
    topic: string,
    text: string,
    studyLevel: string,
    specialty: string,
    sessionLength: string,
    pdfFile: Option<File>)

  /** The form as it is first shown. */
  const InitialForm := FormData("", "", "sixième", "", "courte", None)

  /** The values offered by the study-level select, lowest first. */
  const StudyLevelOptions: seq<string> :=
    ["sixième", "cinquième", "quatrième", "troisième", "seconde", "première", "terminale",
     "licence1", "licence2", "licence3", "master1", "master2"]

  /** The levels that ask for a specialty. */
  const HigherEducationLevels: seq<string> := ["licence1", "licence2", "licence3", "master1", "master2"]

  /** The values offered by the session-length select, shortest first. */
  const SessionLengthOptions: seq<string> := ["courte", "moyenne", "longue"]

  /** The fewest space-separated pieces a pasted text may have. */
  const MinWords := 150

  /** The keys of the error map. */
  datatype Field = Topic | Text | Specialty

  const TopicRequired := "Le sujet est obligatoire"
  const TextTooShort := "Le texte doit contenir au moins 150 mots"
  const SpecialtyRequired := "La spécialité est obligatoire"

  /** The message recorded for a failing rule. */
  function Message(field: Field): string
  {
    match field
    case Topic => TopicRequired
    case Text => TextTooShort
    case Specialty => SpecialtyRequired
  }

  /** `showSpecialtyField`: whether the level asks for a specialty. */
  predicate ShowSpecialtyField(level: string)
  {
    level in HigherEducationLevels
  }

  /** `text.split(' ').length`, the form's notion of a word count. */
  function WordCount(text: string): nat
  {
    |Split(text, ' ')|
  }

  /** Whether the validation rule for `field` fails on `f`. */
  predicate RuleFails(f: FormData, field: Field)
  {
    match field
    case Topic => Trim(f.topic) == []
    case Text => f.pdfFile.None? && f.text != [] && WordCount(f.text) < MinWords
    case Specialty => ShowSpecialtyField(f.studyLevel) && Trim(f.specialty) == []
  }

  /** The error map `validateForm` computes: one entry per failing rule. */
  function Errors(f: FormData): map<Field, string>
  {
    map field | field in {Topic, Text, Specialty} && RuleFails(f, field) :: Message(field)
  }

  /** The lookup table from session length to question count; `None` is `undefined`. */
  function QuestionCount(sessionLength: string): (n: Option<nat>)
    ensures n.Some? <==> sessionLength in SessionLengthOptions
    ensures forall i :: 0 <= i < |SessionLengthOptions| && SessionLengthOptions[i] == sessionLength ==>
      n == Some(10 + 5 * i)
  {
    if sessionLength == "courte" then Some(10)
    else if sessionLength == "moyenne" then Some(15)
    else if sessionLength == "longue" then Some(20)
    else None
  }

  /** What `handleSubmit` hands to `onSubmit`: the form data plus `numberOfQuestions`. */
  datatype Payload = Payload(form: FormData, numberOfQuestions: Option<nat>)

  /** The inputs whose `onChange` handler replaces one field of the form. */
  datatype Input = TopicInput | TextInput | SessionLengthSelect | StudyLevelSelect | SpecialtyInput

  /** A map with one entry, carrying its message, for each failing rule is the error map. */
  lemma ErrorsMatch(f: FormData, m: map<Field, string>)
    requires Topic in m <==> RuleFails(f, Topic)
    requires Text in m <==> RuleFails(f, Text)
    requires Specialty in m <==> RuleFails(f, Specialty)
    requires Topic in m ==> m[Topic] == TopicRequired
    requires Text in m ==> m[Text] == TextTooShort
    requires Specialty in m ==> m[Specialty] == SpecialtyRequired
    ensures m == Errors(f)
  {
    forall field ensures field in m <==> field in Errors(f) {
      match field
      case Topic =>
      case Text =>
      case Specialty =>
    }
  }

  /** An empty or white-space-only topic, and only such a topic, gives a topic error. */
  lemma TopicErrorIff(f: FormData)
    ensures Topic in Errors(f) <==> AllWhiteSpace(f.topic)
    ensures Topic in Errors(f) ==> Errors(f)[Topic] == TopicRequired
  {
    TrimEmptyIff(f.topic);
  }

  /** The topic error depends on the topic alone, whatever the other fields hold. */
  lemma TopicErrorIgnoresOtherFields(f: FormData, g: FormData)
    requires f.topic == g.topic
    ensures Topic in Errors(f) <==> Topic in Errors(g)
  {
    TopicErrorIff(f);
    TopicErrorIff(g);
  }

  /**
   * A text error is recorded exactly when no PDF is chosen, the text is non-empty
   * and it has fewer than 150 pieces, one more than its number of spaces.
   */
  lemma TextErrorIff(f: FormData)
    ensures Text in Errors(f) <==>
      f.pdfFile.None? && f.text != [] && Occurrences(f.text, ' ') + 1 < MinWords
    ensures f.text == [] || f.pdfFile.Some? ==> Text !in Errors(f)
  {
    SplitLength(f.text, ' ');
  }

  /** A specialty error is recorded exactly for the five higher-education levels with a blank specialty. */
  lemma SpecialtyErrorIff(f: FormData)
    ensures Specialty in Errors(f) <==> f.studyLevel in HigherEducationLevels && AllWhiteSpace(f.specialty)
    ensures !ShowSpecialtyField(f.studyLevel) ==> Specialty !in Errors(f)
  {
    TrimEmptyIff(f.specialty);
  }

  /** Of the twelve offered levels, the last five and only those ask for a specialty. */
  lemma SpecialtyOnlyAfterTerminale()
    ensures forall i :: 0 <= i < |StudyLevelOptions| ==>
      (ShowSpecialtyField(StudyLevelOptions[i]) <==> 7 <= i)
  {
  }

  /** The state of the `Home` component. */
  class HomeState {
    var formData: FormData
    var errors: map<Field, string>

    /**
     * The states the form can reach: a chosen file is a PDF and has cleared the
     * text, and both selects hold one of their options.
     */
    ghost predicate Valid()
      reads this
    {
      && (formData.pdfFile.Some? ==> formData.pdfFile.value.mimeType == PdfMimeType && formData.text == [])
      && formData.studyLevel in StudyLevelOptions
      && formData.sessionLength in SessionLengthOptions
    }

    constructor ()
      ensures Valid()
      ensures formData == InitialForm && errors == map[]
    {
      formData := InitialForm;
      errors := map[];
    }

    /**
     * The `onChange` handler of one input. The text area is rendered only while
     * no PDF is chosen and the specialty input only for a higher-education level;
     * a select yields one of its options.
     */
    method Edit(input: Input, value: string)
      requires Valid()
      requires input == TextInput ==> formData.pdfFile.None?
      requires input == SpecialtyInput ==> ShowSpecialtyField(formData.studyLevel)
      requires input == StudyLevelSelect ==> value in StudyLevelOptions
      requires input == SessionLengthSelect ==> value in SessionLengthOptions
      modifies this`formData
      ensures Valid()
      ensures input == TopicInput ==> formData == old(formData).(topic := value)
      ensures input == TextInput ==> formData == old(formData).(text := value)
      ensures input == SessionLengthSelect ==> formData == old(formData).(sessionLength := value)
      ensures input == StudyLevelSelect ==> formData == old(formData).(studyLevel := value)
      ensures input == SpecialtyInput ==> formData == old(formData).(specialty := value)
    {
      match input
      case TopicInput => formData := formData.(topic := value);
      case TextInput => formData := formData.(text := value);
      case SessionLengthSelect => formData := formData.(sessionLength := value);
      case StudyLevelSelect => formData := formData.(studyLevel := value);
      case SpecialtyInput => formData := formData.(specialty := value);
    }

    /**
     * `handleFileChange`: a chosen PDF replaces any previous file and clears the text;
     * no file, or a file of another type, leaves the form as it was.
     */
    method HandleFileChange(chosen: Option<File>)
      requires Valid()
      modifies this`formData
      ensures Valid()
      ensures if chosen.Some? && chosen.value.mimeType == PdfMimeType
              then formData == old(formData).(pdfFile := chosen, text := [])
              else formData == old(formData)
    {
      if chosen.Some? && chosen.value.mimeType == PdfMimeType {
        formData := formData.(pdfFile := chosen, text := []);
      }
    }

    /**
     * `validateForm`: builds the error map rule by rule, stores it, and reports
     * whether it is empty.
     */
    method ValidateForm() returns (ok: bool)
      modifies this`errors
      ensures errors == Errors(formData)
      ensures ok <==> errors == map[]
      ensures ok <==> !RuleFails(formData, Topic) && !RuleFails(formData, Text) && !RuleFails(formData, Specialty)
    {
      var f := formData;
      var newErrors: map<Field, string> := map[];
      if Trim(f.topic) == [] {
        newErrors := newErrors[Topic := TopicRequired];
      }
      assert Topic in newErrors <==> RuleFails(f, Topic);
      if f.pdfFile.None? && f.text != [] && WordCount(f.text) < MinWords {
        newErrors := newErrors[Text := TextTooShort];
      }
      assert Text in newErrors <==> RuleFails(f, Text);
      if ShowSpecialtyField(f.studyLevel) && Trim(f.specialty) == [] {
        newErrors := newErrors[Specialty := SpecialtyRequired];
      }
      assert Specialty in newErrors <==> RuleFails(f, Specialty);
      ErrorsMatch(f, newErrors);
      errors := newErrors;
      ok := |newErrors| == 0;
    }

    /**
     * `handleSubmit`: validates, and only when no rule fails returns the payload
     * handed to `onSubmit`; `None` means `onSubmit` is not called. In a reachable
     * state the payload always carries a question count, and a PDF comes without text.
     */
    method HandleSubmit() returns (submitted: Option<Payload>)
      modifies this`errors
      ensures errors == Errors(formData)
      ensures submitted.Some? <==> Errors(formData) == map[]
      ensures submitted.Some? ==> submitted.value == Payload(formData, QuestionCount(formData.sessionLength))
      ensures Valid() && submitted.Some? ==> submitted.value.numberOfQuestions.Some?
      ensures Valid() && submitted.Some? && submitted.value.form.pdfFile.Some? ==> submitted.value.form.text == []
    {
      var ok := ValidateForm();
      if ok {
        submitted := Some(Payload(formData, QuestionCount(formData.sessionLength)));
      } else {
        submitted := None;
      }
    }
  }
}
