/**
 * The validation rules of the registration form, written as data (one rule
 * set per field, the way the form registers them), and their evaluation in
 * react-hook-form's order: `required` first, then the length limits (an
 * exceeded maximum is reported before a missed minimum), then the pattern.
 * Lengths are JavaScript string lengths (UTF-16 code units).
 */
module RegisterRules {
  import opened Wrappers
  import opened JsStrings
  import EmailPattern

  datatype Field = Name | Email | Phone | Password | ConfirmPassword

  /**
   * The values react-hook-form collects from the five inputs, as the browser
   * hands them over: the `number` and `email` inputs have already been
   * sanitized by then (a phone typed as "123-456-7890" reads as "").
   */
  datatype FormValues = FormValues(name: string, email: string, phone: string, password: string, confirmPassword: string)

  function ValueOf(v: FormValues, f: Field): string
  {
    match f
    case Name => v.name
    case Email => v.email
    case Phone => v.phone
    case Password => v.password
    case ConfirmPassword => v.confirmPassword
  }

  /** A `minLength` or `maxLength` rule: `{ value, message }`. */
  datatype LengthRule = LengthRule(value: nat, message: string)

  /** The regular expressions the form uses; only the email one. */
  datatype PatternKind = EmailAddress

  /** A `pattern` rule: `{ value, message }`. */
  datatype PatternRule = PatternRule(value: PatternKind, message: string)

  /** The options object passed to `register(field, ...)`; a `required` rule is given by its message. */
  datatype Rules = Rules(
    required: Option<string>,
    minLength: Option<LengthRule>,
    maxLength: Option<LengthRule>,
    pattern: Option<PatternRule>)

  const AllFields: set<Field> := {Name, Email, Phone, Password, ConfirmPassword}

  /** The rule table of the registration form. */
  function RulesFor(f: Field): Rules
  {
    match f
    case Name => Rules(Some("This field is Required"),
                       Some(LengthRule(3, "Name must be atleast 3 characters")), None, None)
    case Email => Rules(Some("This field is required"), None, None,
                        Some(PatternRule(EmailAddress, "Email Pattern should be xyz@gmail.com")))
    case Phone => Rules(Some("This field is Required"),
                        Some(LengthRule(10, "Phone must be 10 characters")),
                        Some(LengthRule(10, "Phone must be 10 characters")), None)
    case Password => Rules(Some("This field is Required"),
                           Some(LengthRule(8, "Password must be 8 characters")), None, None)
    case ConfirmPassword => Rules(Some("This field is Required"),
                                  Some(LengthRule(8, "Confirm Password must be 8 characters")), None, None)
  }

  function PatternTest(k: PatternKind, s: string): bool
  {
    match k
    case EmailAddress => EmailPattern.Matches(s)
  }

  /** The declarative reading of a rule set: every rule that applies is met. */
  predicate Satisfies(value: string, rules: Rules)
  {
    && (rules.required.Some? ==> value != "")
    && (value != "" ==>
         && (rules.minLength.Some? ==> JsLength(value) >= rules.minLength.value.value)
         && (rules.maxLength.Some? ==> JsLength(value) <= rules.maxLength.value.value)
         && (rules.pattern.Some? ==> PatternTest(rules.pattern.value.value, value)))
  }

  /** The messages a rule set can report. */
  predicate IsRuleMessage(m: string, rules: Rules)
  {
    || rules.required == Some(m)
    || (rules.minLength.Some? && rules.minLength.value.message == m)
    || (rules.maxLength.Some? && rules.maxLength.value.message == m)
    || (rules.pattern.Some? && rules.pattern.value.message == m)
  }

  /**
   * One field's check: the message of the first failing rule, or none. An
   * empty value that is not required passes, since the later rules skip
   * empty values.
   */
  function CheckValue(value: string, rules: Rules): Option<string>
  {
    if value == "" then rules.required
    else if rules.maxLength.Some? && JsLength(value) > rules.maxLength.value.value then
      Some(rules.maxLength.value.message)
    else if rules.minLength.Some? && JsLength(value) < rules.minLength.value.value then
      Some(rules.minLength.value.message)
    else if rules.pattern.Some? && !PatternTest(rules.pattern.value.value, value) then
      Some(rules.pattern.value.message)
    else None
  }

  /**
   * The ordered check agrees with the declarative reading: it reports
   * nothing exactly when every rule is met, it reports only messages of the
   * rule set, and an empty value reports the `required` message if any.
   */
  lemma CheckValueMeansSatisfies(value: string, rules: Rules)
    ensures CheckValue(value, rules).None? <==> Satisfies(value, rules)
    ensures CheckValue(value, rules).Some? ==> IsRuleMessage(CheckValue(value, rules).value, rules)
    ensures value == "" ==> CheckValue(value, rules) == rules.required
  {
  }

  function CheckField(v: FormValues, f: Field): Option<string>
  {
    CheckValue(ValueOf(v, f), RulesFor(f))
  }

  /** The `errors` object: one message for each field that fails, no entry for the others. */
  function Validate(v: FormValues): map<Field, string>
  {
    map f | f in AllFields && CheckField(v, f).Some? :: CheckField(v, f).value
  }

  /**
   * A field has an entry in `errors` exactly when one of its rules is not
   * met, and the entry is one of that field's own messages.
   */
  lemma ErrorsMeanRulesBroken(v: FormValues, f: Field)
    ensures f in Validate(v) <==> !Satisfies(ValueOf(v, f), RulesFor(f))
    ensures f in Validate(v) ==> IsRuleMessage(Validate(v)[f], RulesFor(f))
  {
    CheckValueMeansSatisfies(ValueOf(v, f), RulesFor(f));
  }

  /** Name: required, then at least three characters. */
  lemma NameRule(s: string)
    ensures CheckValue(s, RulesFor(Name)) ==
      if s == "" then Some("This field is Required")
      else if JsLength(s) < 3 then Some("Name must be atleast 3 characters")
      else None
  {
  }

  /** Email: required, then the address pattern. */
  lemma EmailRule(s: string)
    ensures CheckValue(s, RulesFor(Email)) ==
      if s == "" then Some("This field is required")
      else if !EmailPattern.Matches(s) then Some("Email Pattern should be xyz@gmail.com")
      else None
  {
  }

  /** Phone: valid exactly when it is ten characters long; too short and too long read the same. */
  lemma PhoneRule(s: string)
    ensures CheckValue(s, RulesFor(Phone)).None? <==> s != "" && JsLength(s) == 10
    ensures s == "" ==> CheckValue(s, RulesFor(Phone)) == Some("This field is Required")
    ensures s != "" && JsLength(s) != 10 ==> CheckValue(s, RulesFor(Phone)) == Some("Phone must be 10 characters")
  {
  }

  /** Password and confirmation: each at least eight characters, each with its own message. */
  lemma PasswordRules(s: string)
    ensures CheckValue(s, RulesFor(Password)) ==
      if s == "" then Some("This field is Required")
      else if JsLength(s) < 8 then Some("Password must be 8 characters")
      else None
    ensures CheckValue(s, RulesFor(ConfirmPassword)) ==
      if s == "" then Some("This field is Required")
      else if JsLength(s) < 8 then Some("Confirm Password must be 8 characters")
      else None
  {
  }

  /** A field's error depends on that field's value alone: no rule looks at another field. */
  lemma ErrorsAreLocal(v1: FormValues, v2: FormValues, f: Field)
    requires ValueOf(v1, f) == ValueOf(v2, f)
    ensures f in Validate(v1) <==> f in Validate(v2)
    ensures f in Validate(v1) ==> Validate(v1)[f] == Validate(v2)[f]
  {
  }

  /** Long enough passwords pass whether or not they agree with each other. */
  lemma NoPasswordMatchCheck(v: FormValues)
    requires JsLength(v.password) >= 8 && JsLength(v.confirmPassword) >= 8
    ensures Password !in Validate(v) && ConfirmPassword !in Validate(v)
  {
    assert JsLength("") == 0;
  }

  /**
   * A phone of the wrong length, with every other field passing its own
   * rules, fails on the phone alone, with the one length message.
   */
  lemma WrongPhoneLengthOnlyPhoneFails(v: FormValues)
    requires v.phone != "" && JsLength(v.phone) != 10
    requires forall f :: f != Phone ==> CheckField(v, f).None?
    ensures Validate(v) == map[Phone := "Phone must be 10 characters"]
  {
    var e := Validate(v);
    forall f
      ensures f in e <==> f == Phone
    {
      if f == Phone {
        PhoneRule(v.phone);
      }
    }
    assert e.Keys == {Phone};
    PhoneRule(v.phone);
  }

  /** "12345" is five characters long, so it is a phone of the wrong length. */
  lemma FiveDigitPhoneIsWrongLength()
    ensures "12345" != "" && JsLength("12345") == 5
  {
    JsLengthOfBmp("12345");
  }

  /** "Ann" is long enough for a name. */
  lemma ThreeLetterNamePasses(s: string)
    requires s == "Ann"
    ensures CheckValue(s, RulesFor(Name)).None?
  {
    JsLengthOfBmp(s);
    NameRule(s);
  }

  /** The form's own example address passes the email rules. */
  lemma ExampleEmailPasses(s: string)
    requires s == "xyz@gmail.com"
    ensures CheckValue(s, RulesFor(Email)).None?
  {
    EmailPattern.ExampleAddressMatches(s);
    EmailRule(s);
  }

  /** "password" is long enough for both password fields. */
  lemma EightLetterPasswordPasses(s: string)
    requires s == "password"
    ensures CheckValue(s, RulesFor(Password)).None?
    ensures CheckValue(s, RulesFor(ConfirmPassword)).None?
  {
    JsLengthOfBmp(s);
    PasswordRules(s);
  }

  /** The example form's name, email and two passwords all pass. */
  lemma ExampleFieldsPass(v: FormValues)
    requires v.name == "Ann" && v.email == "xyz@gmail.com"
    requires v.password == "password" && v.confirmPassword == "password"
    ensures forall f :: f != Phone ==> CheckField(v, f).None?
  {
    assert CheckField(v, Name).None? by { ThreeLetterNamePasses(v.name); }
    assert CheckField(v, Email).None? by { ExampleEmailPasses(v.email); }
    assert CheckField(v, Password).None? && CheckField(v, ConfirmPassword).None? by {
      EightLetterPasswordPasses(v.password);
    }
  }

  /**
   * A full form whose only fault is a five-digit phone: the error map holds
   * the phone's length message and nothing else.
   */
  lemma FiveDigitPhoneOnlyFails(v: FormValues)
    requires v == FormValues("Ann", "xyz@gmail.com", "12345", "password", "password")
    ensures Validate(v) == map[Phone := "Phone must be 10 characters"]
  {
    assert forall f :: f != Phone ==> CheckField(v, f).None? by { ExampleFieldsPass(v); }
    assert v.phone != "" && JsLength(v.phone) != 10 by { FiveDigitPhoneIsWrongLength(); }
    WrongPhoneLengthOnlyPhoneFails(v);
  }
}
