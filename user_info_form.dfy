/** The `UserInfoForm` component: the customer's details, the per-field validation
    rules (required fields, the phone pattern after stripping separators, the email
    pattern), and the form state the change and submit handlers update. */
module UserInfoForm {
  import opened Types
  import opened Text

  /** The five inputs of the form; `ClassYear` is the input named `class`. */
  datatype Field = Name | Phone | Email | Course | ClassYear

  function GetField(d: UserInfo, f: Field): string {
    match f
    case Name => d.name
    case Phone => d.phone
    case Email => d.email
    case Course => d.course
    case ClassYear => d.classYear
  }

  /** `{ ...prev, [name]: value }`: one field replaced, the others kept. */
  function SetField(d: UserInfo, f: Field, v: string): (r: UserInfo)
    ensures GetField(r, f) == v
    ensures forall g :: g != f ==> GetField(r, g) == GetField(d, g)
  {
    match f
    case Name => d.(name := v)
    case Phone => d.(phone := v)
    case Email => d.(email := v)
    case Course => d.(course := v)
    case ClassYear => d.(classYear := v)
  }

  /** `Partial<UserInfo>`: each field may be missing. */
  datatype PartialUserInfo = PartialUserInfo(
    name: Option<string>, phone: Option<string>, email: Option<string>,
    course: Option<string>, classYear: Option<string>)

  /** `initialData.x || ''`: a missing field, like an empty one, starts empty. */
  function InitialFormData(initial: PartialUserInfo): (d: UserInfo)
    ensures forall f :: GetField(d, f) == PartialField(initial, f).GetOr("")
  {
    UserInfo(initial.name.GetOr(""), initial.email.GetOr(""), initial.phone.GetOr(""),
             initial.course.GetOr(""), initial.classYear.GetOr(""))
  }

  function PartialField(p: PartialUserInfo, f: Field): Option<string> {
    match f
    case Name => p.name
    case Phone => p.phone
    case Email => p.email
    case Course => p.course
    case ClassYear => p.classYear
  }

  // ---------------------------------------------------------------- phone

  /** The class `[\s-]` that the phone check deletes. */
  predicate PhoneSeparator(c: char) {
    IsWhitespace(c) || c == '-'
  }

  /** `phone.replace(/[\s-]/g, '')`: every other character kept, as often as it occurs. */
  function StripPhone(s: string): (r: string)
    ensures forall i :: 0 <= i < |r| ==> !PhoneSeparator(r[i])
    ensures |r| <= |s|
    ensures (forall i :: 0 <= i < |s| ==> !PhoneSeparator(s[i])) ==> r == s
  {
    if s == [] then []
    else
      var rest := StripPhone(s[1..]);
      assert s == [s[0]] + s[1..];
      if PhoneSeparator(s[0]) then rest else [s[0]] + rest
  }

  /** Stripping keeps every other character as often as it occurs. */
  lemma {:induction false} StripPhoneKeepsOthers(s: string, c: char)
    requires !PhoneSeparator(c)
    ensures multiset(StripPhone(s))[c] == multiset(s)[c]
  {
    if s != [] {
      StripPhoneKeepsOthers(s[1..], c);
      assert s == [s[0]] + s[1..];
    }
  }

  /** Digits only, between 10 and 15 of them. */
  predicate DigitRun(d: string) {
    10 <= |d| <= 15 && AllDigits(d)
  }

  /** The pattern `^\+?[0-9]{10,15}$`, read as a language: a run of 10 to 15 digits,
      optionally preceded by '+'. */
  ghost predicate PhonePattern(p: string) {
    exists d :: DigitRun(d) && (p == d || p == ['+'] + d)
  }

  /** The phone test as the component evaluates it, one optional '+' then the run. */
  function PhoneMatches(p: string): bool {
    if p != [] && p[0] == '+' then DigitRun(p[1..]) else DigitRun(p)
  }

  lemma PhoneMatchesIffPattern(p: string)
    ensures PhoneMatches(p) <==> PhonePattern(p)
  {
    if PhoneMatches(p) {
      if p != [] && p[0] == '+' {
        assert p == ['+'] + p[1..];
      }
    }
    if PhonePattern(p) {
      var d :| DigitRun(d) && (p == d || p == ['+'] + d);
      if p == ['+'] + d {
        assert p[1..] == d;
      }
    }
  }

  // ---------------------------------------------------------------- email

  /** The class `[^\s@]`. */
  predicate EmailChar(c: char) {
    !IsWhitespace(c) && c != '@'
  }

  predicate AllEmailChars(s: string) {
    forall j :: 0 <= j < |s| ==> EmailChar(s[j])
  }

  /** `s` splits as `local @ domain . top` at '@' index `i` and '.' index `k`, each part
      non-empty and every character but the '@' in `[^\s@]`. */
  predicate EmailSplit(s: string, i: int, k: int) {
    && 0 < i && i + 1 < k && k + 1 < |s|
    && s[i] == '@' && s[k] == '.'
    && AllEmailChars(s[..i]) && AllEmailChars(s[i + 1..])
  }

  /** The pattern `^[^\s@]+@[^\s@]+\.[^\s@]+$`, read as a language. */
  ghost predicate EmailPattern(s: string) {
    exists i, k :: EmailSplit(s, i, k)
  }

  /** The index of the first `c` in `s`, if any. */
  function IndexOf(s: string, c: char): (r: Option<nat>)
    ensures r.None? <==> c !in s
    ensures r.Some? ==> r.value < |s| && s[r.value] == c && c !in s[..r.value]
  {
    if s == [] then None
    else if s[0] == c then Some(0)
    else
      var r := IndexOf(s[1..], c);
      assert s == [s[0]] + s[1..];
      if r.None? then None
      else
        assert s[..r.value + 1] == [s[0]] + s[1..][..r.value];
        Some(r.value + 1)
  }

  /** The email test as the component evaluates it: split at the first '@', then check
      both sides. */
  function EmailMatches(s: string): bool {
    match IndexOf(s, '@')
    case None => false
    case Some(i) =>
      var domain := s[i + 1..];
      && i > 0 && AllEmailChars(s[..i])
      && |domain| >= 3 && AllEmailChars(domain) && '.' in domain[1..|domain| - 1]
  }

  lemma EmailMatchesIffPattern(s: string)
    ensures EmailMatches(s) <==> EmailPattern(s)
  {
    if EmailMatches(s) {
      var i := IndexOf(s, '@').value;
      var domain := s[i + 1..];
      var m :| 0 <= m < |domain[1..|domain| - 1]| && domain[1..|domain| - 1][m] == '.';
      assert EmailSplit(s, i, i + 2 + m);
    }
    if EmailPattern(s) {
      var i, k :| EmailSplit(s, i, k);
      var r := IndexOf(s, '@');
      assert r.Some? && r.value == i;
      var domain := s[i + 1..];
      assert domain[1..|domain| - 1][k - i - 2] == '.';
    }
  }

  // ---------------------------------------------------------------- validation

  const NAME_REQUIRED := "Name is required"
  const PHONE_REQUIRED := "Phone number is required"
  const PHONE_INVALID := "Please enter a valid phone number"
  const EMAIL_REQUIRED := "Email is required"
  const EMAIL_INVALID := "Please enter a valid email address"
  const COURSE_REQUIRED := "Course is required"
  const CLASS_REQUIRED := "Class/Year is required"

  /** A required field: the message when the trimmed value is empty, that is, when the
      value is blank (`Text.TrimEmptyIffBlank`). */
  function RequiredError(value: string, message: string): Option<string> {
    if IsBlank(value) then Some(message) else None
  }

  /** The phone checks: required first, then the pattern on the stripped value. */
  function PhoneError(phone: string): Option<string> {
    if IsBlank(phone) then Some(PHONE_REQUIRED)
    else if !PhoneMatches(StripPhone(phone)) then Some(PHONE_INVALID)
    else None
  }

  /** The email checks: required first, then the pattern on the untrimmed value. */
  function EmailError(email: string): Option<string> {
    if IsBlank(email) then Some(EMAIL_REQUIRED)
    else if !EmailMatches(email) then Some(EMAIL_INVALID)
    else None
  }

  /** The message `validate` records for one field, if any. */
  function FieldError(d: UserInfo, f: Field): (err: Option<string>)
  {
    match f
    case Name => RequiredError(d.name, NAME_REQUIRED)
    case Phone => PhoneError(d.phone)
    case Email => EmailError(d.email)
    case Course => RequiredError(d.course, COURSE_REQUIRED)
    case ClassYear => RequiredError(d.classYear, CLASS_REQUIRED)
  }

  /** `errs` with the entry for `f` recorded when `err` is a message. */
  function Record(errs: map<Field, string>, f: Field, err: Option<string>): map<Field, string> {
    if err.Some? then errs[f := err.value] else errs
  }

  /** The outcome for `f` among the five outcomes of the checks. */
  function Pick(f: Field, name: Option<string>, phone: Option<string>, email: Option<string>,
                course: Option<string>, classYear: Option<string>): Option<string> {
    match f
    case Name => name
    case Phone => phone
    case Email => email
    case Course => course
    case ClassYear => classYear
  }

  /** The record built by recording the five outcomes in the order name, phone, email,
      course, class. */
  function RecordAll(name: Option<string>, phone: Option<string>, email: Option<string>,
                     course: Option<string>, classYear: Option<string>): map<Field, string> {
    Record(Record(Record(Record(Record(map[], Name, name), Phone, phone), Email, email), Course, course), ClassYear, classYear)
  }

  /** The record holds an entry exactly for the outcomes that are messages, with that
      message. */
  lemma RecordAllEntries(name: Option<string>, phone: Option<string>, email: Option<string>,
                         course: Option<string>, classYear: Option<string>)
    ensures var m := RecordAll(name, phone, email, course, classYear);
            forall f :: (f in m <==> Pick(f, name, phone, email, course, classYear).Some?)
                        && (f in m ==> m[f] == Pick(f, name, phone, email, course, classYear).value)
  {
  }

  /** The `newErrors` record `validate` builds: one entry per failing field, holding
      that field's message. */
  function FieldErrors(d: UserInfo): (errs: map<Field, string>)
    ensures forall f :: f in errs <==> FieldError(d, f).Some?
    ensures forall f :: f in errs ==> errs[f] == FieldError(d, f).value
  {
    var name, phone, email := FieldError(d, Name), FieldError(d, Phone), FieldError(d, Email);
    var course, classYear := FieldError(d, Course), FieldError(d, ClassYear);
    RecordAllEntries(name, phone, email, course, classYear);
    assert forall f :: FieldError(d, f) == Pick(f, name, phone, email, course, classYear);
    RecordAll(name, phone, email, course, classYear)
  }

  /** The required fields: an error exactly when the trimmed value is empty. */
  lemma RequiredFieldRule(d: UserInfo, f: Field)
    requires f == Name || f == Course || f == ClassYear
    ensures FieldError(d, f).Some? <==> Trim(GetField(d, f)) == []
  {
    TrimEmptyIffBlank(GetField(d, f));
  }

  /** The phone rule: an empty trimmed value is "required"; otherwise the stripped value must match the
      pattern. */
  lemma PhoneRule(d: UserInfo)
    ensures FieldError(d, Phone) == Some(PHONE_REQUIRED) <==> Trim(d.phone) == []
    ensures FieldError(d, Phone) == Some(PHONE_INVALID) <==> Trim(d.phone) != [] && !PhonePattern(StripPhone(d.phone))
    ensures FieldError(d, Phone).None? <==> Trim(d.phone) != [] && PhonePattern(StripPhone(d.phone))
  {
    TrimEmptyIffBlank(d.phone);
    PhoneMatchesIffPattern(StripPhone(d.phone));
  }

  /** The email rule: an empty trimmed value is "required"; otherwise the untrimmed value must match the
      pattern. */
  lemma EmailRule(d: UserInfo)
    ensures FieldError(d, Email) == Some(EMAIL_REQUIRED) <==> Trim(d.email) == []
    ensures FieldError(d, Email) == Some(EMAIL_INVALID) <==> Trim(d.email) != [] && !EmailPattern(d.email)
    ensures FieldError(d, Email).None? <==> Trim(d.email) != [] && EmailPattern(d.email)
  {
    TrimEmptyIffBlank(d.email);
    EmailMatchesIffPattern(d.email);
  }

  /** Leading white space makes a non-blank email fail the pattern: the pattern is
      applied to the untrimmed value. */
  lemma EmailNotTrimmed(d: UserInfo)
    requires |d.email| > 0 && IsWhitespace(d.email[0]) && !IsBlank(d.email)
    ensures FieldError(d, Email) == Some(EMAIL_INVALID)
  {
    EmailMatchesIffPattern(d.email);
    PatternStartsWithEmailChar(d.email);
  }

  /** A string the email pattern accepts starts with a `[^\s@]` character. */
  lemma PatternStartsWithEmailChar(s: string)
    ensures EmailPattern(s) ==> |s| > 0 && EmailChar(s[0])
  {
    if EmailPattern(s) {
      var i, k :| EmailSplit(s, i, k);
      assert s[..i][0] == s[0];
    }
  }

  /** The form data with every field `Valid`. */
  predicate AllValid(d: UserInfo) {
    forall f :: FieldError(d, f).None?
  }

  lemma NoErrorsIffAllValid(d: UserInfo)
    ensures FieldErrors(d) == map[] <==> AllValid(d)
  {
    if !AllValid(d) {
      var f :| FieldError(d, f).Some?;
      assert f in FieldErrors(d);
    }
  }

  /** The component's state: `formData` and `errors`. */
  class FormState {
    var formData: UserInfo
    var errors: map<Field, string>

    constructor (initial: PartialUserInfo)
      ensures formData == InitialFormData(initial) && errors == map[]
    {
      formData := InitialFormData(initial);
      errors := map[];
    }

    /** `handleChange`: the edited field takes the value and loses its error; nothing
        else changes. */
    method HandleChange(f: Field, value: string)
      modifies this
      ensures formData == SetField(old(formData), f, value)
      ensures errors == old(errors) - {f}
    {
      formData := SetField(formData, f, value);
      if f in errors {
        errors := errors - {f};
      }
    }

    /** `validate`: the checks run field by field into a fresh record, which replaces
        `errors`; the result is whether it stayed empty. */
    method Validate() returns (ok: bool)
      modifies this
      ensures formData == old(formData)
      ensures errors == FieldErrors(formData)
      ensures ok <==> AllValid(formData)
    {
      var newErrors: map<Field, string> := map[];
      newErrors := Record(newErrors, Name, RequiredError(formData.name, NAME_REQUIRED));
      newErrors := Record(newErrors, Phone, PhoneError(formData.phone));
      newErrors := Record(newErrors, Email, EmailError(formData.email));
      newErrors := Record(newErrors, Course, RequiredError(formData.course, COURSE_REQUIRED));
      newErrors := Record(newErrors, ClassYear, RequiredError(formData.classYear, CLASS_REQUIRED));
      assert newErrors == FieldErrors(formData);
      errors := newErrors;
      ok := |newErrors| == 0;
      NoErrorsIffAllValid(formData);
    }

    /** `handleSubmit`: `onSubmit` receives exactly the form data, and only when it
        validates. */
    method HandleSubmit() returns (submitted: Option<UserInfo>)
      modifies this
      ensures formData == old(formData) && errors == FieldErrors(formData)
      ensures submitted.Some? <==> AllValid(formData)
      ensures submitted.Some? ==> submitted.value == formData
    {
      var ok := Validate();
      submitted := if ok then Some(formData) else None;
    }
  }
}
