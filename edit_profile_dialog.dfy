/**
 * The profile edit dialog (EditProfileDialog.tsx): the six form fields, the
 * per-field error messages, and the submit flow that validates before calling
 * `onSave`.
 */
module EditProfileDialog {
  import opened Text

  datatype FormField = NameField | TitleField | EmailField | PhoneField | LocationField | SummaryField

  datatype ProfileFormData = ProfileFormData(name: string, title: string, email: string, phone: string,
                                             location: string, summary: string)

  const EmptyForm := ProfileFormData("", "", "", "", "", "")

  const NameRequired := "Name is required"
  const EmailRequired := "Email is required"
  const InvalidEmail := "Invalid email format"

  /** `formData[field]` */
  function FieldValue(d: ProfileFormData, f: FormField): string {
    match f
    case NameField => d.name
    case TitleField => d.title
    case EmailField => d.email
    case PhoneField => d.phone
    case LocationField => d.location
    case SummaryField => d.summary
  }

  /** `{...formData, [field]: value}` */
  function WithField(d: ProfileFormData, f: FormField, v: string): (r: ProfileFormData)
    ensures forall g :: FieldValue(r, g) == if g == f then v else FieldValue(d, g)
  {
    match f
    case NameField => d.(name := v)
    case TitleField => d.(title := v)
    case EmailField => d.(email := v)
    case PhoneField => d.(phone := v)
    case LocationField => d.(location := v)
    case SummaryField => d.(summary := v)
  }

  /** A form is determined by its six fields. */
  lemma FieldsDetermineForm(d: ProfileFormData, e: ProfileFormData)
    ensures (forall g :: FieldValue(d, g) == FieldValue(e, g)) <==> d == e
  {
    if forall g :: FieldValue(d, g) == FieldValue(e, g) {
      assert FieldValue(d, NameField) == FieldValue(e, NameField);
      assert FieldValue(d, TitleField) == FieldValue(e, TitleField);
      assert FieldValue(d, EmailField) == FieldValue(e, EmailField);
      assert FieldValue(d, PhoneField) == FieldValue(e, PhoneField);
      assert FieldValue(d, LocationField) == FieldValue(e, LocationField);
      assert FieldValue(d, SummaryField) == FieldValue(e, SummaryField);
    }
  }

  predicate NoSpace(t: string) {
    forall i :: 0 <= i < |t| ==> !IsSpace(t[i])
  }

  /** `s[p..e]` is a match of `\S+@\S+\.\S+`, with the `@` at `q` and the `.` at `r`. */
  ghost predicate MatchAt(s: string, p: int, q: int, r: int, e: int) {
    0 <= p < q && q + 1 < r && r + 1 < e <= |s|
    && s[q] == '@' && s[r] == '.'
    && NoSpace(s[p..q]) && NoSpace(s[q + 1..r]) && NoSpace(s[r + 1..e])
  }

  /** `/\S+@\S+\.\S+/.test(s)`: the pattern matches somewhere in `s` (it is not anchored). */
  ghost predicate EmailPatternMatches(s: string) {
    exists p, q, r, e :: MatchAt(s, p, q, r, e)
  }

  /** An `@` at `q` with a non-space before it, a non-space run after it up to a `.` at `r`, and a non-space after that. */
  predicate ShortestMatchAt(s: string, q: int, r: int) {
    1 <= q && q + 1 < r && r + 2 <= |s|
    && s[q] == '@' && s[r] == '.' && !IsSpace(s[q - 1]) && NoSpace(s[q + 1..r]) && !IsSpace(s[r + 1])
  }

  /** The test as a check for the shortest possible match. */
  predicate EmailPatternTest(s: string) {
    exists q, r | 0 <= q < r < |s| :: ShortestMatchAt(s, q, r)
  }

  /** Every string the check accepts has a match: the shortest one around the `@` and `.` it found. */
  lemma EmailPatternTestSound(s: string, q: int, r: int)
    requires ShortestMatchAt(s, q, r)
    ensures EmailPatternMatches(s)
  {
    assert s[q - 1..q] == [s[q - 1]];
    assert s[r + 1..r + 2] == [s[r + 1]];
    assert MatchAt(s, q - 1, q, r, r + 2);
  }

  /** Any match supplies the `@` and `.` the check looks for. */
  lemma EmailPatternTestComplete(s: string, p: int, q: int, r: int, e: int)
    requires MatchAt(s, p, q, r, e)
    ensures ShortestMatchAt(s, q, r)
  {
    assert s[q - 1] == s[p..q][q - 1 - p];
    assert s[r + 1] == s[r + 1..e][0];
  }

  /** The check accepts exactly the strings the pattern matches. */
  lemma EmailPatternTestCorrect(s: string)
    ensures EmailPatternTest(s) <==> EmailPatternMatches(s)
  {
    if EmailPatternTest(s) {
      var q, r :| 0 <= q < r < |s| && ShortestMatchAt(s, q, r);
      EmailPatternTestSound(s, q, r);
    }
    if EmailPatternMatches(s) {
      var p, q, r, e :| MatchAt(s, p, q, r, e);
      EmailPatternTestComplete(s, p, q, r, e);
    }
  }

  /** The error map the fresh validation produces: keys are fields, values their messages. */
  type Errors = map<FormField, string>

  lemma NoKeysIsEmpty(m: Errors)
    ensures |m.Keys| == 0 <==> m == map[]
  {
    if |m.Keys| == 0 {
      assert m.Keys == {};
    }
  }

  class Dialog {
    var formData: ProfileFormData
    var errors: Errors
    var isSubmitting: bool

    /** The dialog opens with `initialData`, or all fields empty, and no errors. */
    constructor(initialData: ProfileFormData)
      ensures formData == initialData && errors == map[] && !isSubmitting
    {
      formData := initialData;
      errors := map[];
      isSubmitting := false;
    }

    /**
     * `handleFieldChange(field, value)`: only `field` changes, and its error
     * is blanked when it had a non-empty one; every other error stays.
     */
    method FieldChange(f: FormField, v: string)
      modifies this
      ensures formData == WithField(old(formData), f, v)
      ensures f in old(errors) && old(errors)[f] != "" ==> errors == old(errors)[f := ""]
      ensures !(f in old(errors) && old(errors)[f] != "") ==> errors == old(errors)
      ensures isSubmitting == old(isSubmitting)
    {
      formData := WithField(formData, f, v);
      if f in errors && errors[f] != "" {
        errors := errors[f := ""];
      }
    }

    /**
     * `validateForm`: the errors are replaced by exactly the new ones — a name
     * error when the name is blank, an email error when the email is blank or
     * does not match the pattern — and the form is valid iff there is none.
     */
    method ValidateForm() returns (valid: bool)
      modifies this
      ensures errors.Keys <= {NameField, EmailField}
      ensures NameField in errors <==> AllSpace(formData.name)
      ensures NameField in errors ==> errors[NameField] == NameRequired
      ensures EmailField in errors <==> AllSpace(formData.email) || !EmailPatternMatches(formData.email)
      ensures EmailField in errors ==>
                errors[EmailField] == if AllSpace(formData.email) then EmailRequired else InvalidEmail
      ensures valid <==> errors == map[]
      ensures formData == old(formData) && isSubmitting == old(isSubmitting)
    {
      var name, email := formData.name, formData.email;
      EmailPatternTestCorrect(email);
      var newErrors: Errors := map[];
      if IsBlank(name) {
        newErrors := newErrors[NameField := NameRequired];
      }
      if IsBlank(email) {
        newErrors := newErrors[EmailField := EmailRequired];
      } else if !EmailPatternTest(email) {
        newErrors := newErrors[EmailField := InvalidEmail];
      }
      errors := newErrors;
      valid := |newErrors.Keys| == 0;
      NoKeysIsEmpty(newErrors);
    }

    /**
     * `handleSubmit` up to the `await`: validate, and stop there when the form
     * is invalid; otherwise submitting is on and `onSave(formData)` is to be called.
     */
    method BeginSubmit() returns (proceed: bool)
      modifies this
      ensures proceed <==> !AllSpace(formData.name) && !AllSpace(formData.email)
                           && EmailPatternMatches(formData.email)
      ensures proceed ==> isSubmitting
      ensures !proceed ==> isSubmitting == old(isSubmitting)
      ensures formData == old(formData)
      ensures errors.Keys <= {NameField, EmailField}
      ensures NameField in errors <==> AllSpace(formData.name)
      ensures NameField in errors ==> errors[NameField] == NameRequired
      ensures EmailField in errors <==> AllSpace(formData.email) || !EmailPatternMatches(formData.email)
      ensures EmailField in errors ==>
                errors[EmailField] == if AllSpace(formData.email) then EmailRequired else InvalidEmail
      ensures proceed <==> errors == map[]
    {
      proceed := ValidateForm();
      assert proceed ==> NameField !in errors && EmailField !in errors;
      if proceed {
        isSubmitting := true;
      }
    }

    /**
     * `handleSubmit` after the `await`: the dialog is to be closed exactly when
     * `onSave` returned; submitting is off either way.
     */
    method EndSubmit(saved: bool) returns (close: bool)
      modifies this
      ensures close == saved
      ensures !isSubmitting && formData == old(formData) && errors == old(errors)
    {
      close := saved;
      isSubmitting := false;
    }
  }
}
