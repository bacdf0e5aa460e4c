/**
 * components/multi-step-lead-form.tsx: the five-step lead form. The phone
 * display formatter and the E.164 conversion done before submission are
 * functions; the step navigation is a class whose fields are the component's
 * state (`currentStep`, `isSubmitting`, `isSubmitted` and the fields whose
 * validation error is shown).
 */
module MultiStepLeadForm {
  import opened Outcomes
  import opened Text

  /** `digits.slice(0, n)` */
  function Prefix(d: string, n: nat): (r: string)
    ensures |r| == if |d| <= n then |d| else n
    ensures r == d[..|r|]
  {
    if |d| <= n then d else d[..n]
  }

  /** The display formatter `formatPhoneNumber`: `(ddd) ddd-dddd`, built from at most ten digits. */
  function FormatPhoneDisplay(value: string): (r: string)
    ensures var d := Prefix(Digits(value), 10);
      && (|d| < 3 ==> r == d)
      && (3 <= |d| < 6 ==> r == "(" + d[..3] + ") " + d[3..])
      && (6 <= |d| ==> r == "(" + d[..3] + ") " + d[3..6] + "-" + d[6..])
  {
    var d := Prefix(Digits(value), 10);
    if |d| >= 6 then "(" + d[..3] + ") " + d[3..6] + "-" + d[6..]
    else if |d| >= 3 then "(" + d[..3] + ") " + d[3..]
    else d
  }

  lemma DigitsOfPunctuation()
    ensures Digits("(") == [] && Digits(") ") == [] && Digits("-") == []
  {
    DigitsOfNoDigits("(");
    DigitsOfNoDigits(") ");
    DigitsOfNoDigits("-");
  }

  /** The digits of `(a) b-c` are those of the three groups, in order. */
  lemma DigitsOfThreeGroups(a: string, b: string, c: string)
    requires AllDigits(a) && AllDigits(b) && AllDigits(c)
    ensures Digits("(" + a + ") " + b + "-" + c) == a + b + c
  {
    DigitsOfPunctuation();
    DigitsOfDigits(a);
    DigitsOfDigits(b);
    DigitsOfDigits(c);
    DigitsAppend("(", a);
    assert Digits("(" + a) == a;
    DigitsAppend("(" + a, ") ");
    assert Digits("(" + a + ") ") == a;
    DigitsAppend("(" + a + ") ", b);
    assert Digits("(" + a + ") " + b) == a + b;
    DigitsAppend("(" + a + ") " + b, "-");
    assert Digits("(" + a + ") " + b + "-") == a + b;
    DigitsAppend("(" + a + ") " + b + "-", c);
  }

  /** The digits of `(a) b` are those of the two groups, in order. */
  lemma DigitsOfTwoGroups(a: string, b: string)
    requires AllDigits(a) && AllDigits(b)
    ensures Digits("(" + a + ") " + b) == a + b
  {
    DigitsOfPunctuation();
    DigitsOfDigits(a);
    DigitsOfDigits(b);
    DigitsAppend("(", a);
    assert Digits("(" + a) == a;
    DigitsAppend("(" + a, ") ");
    assert Digits("(" + a + ") ") == a;
    DigitsAppend("(" + a + ") ", b);
  }

  /** The digits of the display are exactly the first (at most ten) digits typed, in order. */
  lemma DisplayDigits(value: string)
    ensures Digits(FormatPhoneDisplay(value)) == Prefix(Digits(value), 10)
  {
    var d := Prefix(Digits(value), 10);
    assert AllDigits(d);
    if |d| >= 6 {
      DigitsOfThreeGroups(d[..3], d[3..6], d[6..]);
      assert d[..3] + d[3..6] + d[6..] == d;
    } else if |d| >= 3 {
      DigitsOfTwoGroups(d[..3], d[3..]);
      assert d[..3] + d[3..] == d;
    } else {
      DigitsOfDigits(d);
    }
  }

  /** Re-formatting what is displayed leaves it unchanged. */
  lemma DisplayIdempotent(value: string)
    ensures FormatPhoneDisplay(FormatPhoneDisplay(value)) == FormatPhoneDisplay(value)
  {
    DisplayDigits(value);
    DisplayDigits(FormatPhoneDisplay(value));
  }

  /**
   * The phone sent with the lead (`formattedPhone || undefined`): ten digits
   * become `+1` and the digits, eleven digits starting with `1` become `+` and
   * the digits, any other non-empty value is sent as typed, and an empty value
   * is omitted.
   */
  function SubmissionPhone(phone: string): (r: Option<string>)
    ensures r == None <==> phone == ""
    ensures |Digits(phone)| == 10 ==> r == Some("+1" + Digits(phone))
    ensures |Digits(phone)| == 11 && Digits(phone)[0] == '1' ==> r == Some("+" + Digits(phone))
    ensures phone != "" && |Digits(phone)| != 10 && !(|Digits(phone)| == 11 && Digits(phone)[0] == '1')
            ==> r == Some(phone)
  {
    var formatted :=
      if phone == "" then phone
      else
        var digits := Digits(phone);
        if |digits| == 10 then "+1" + digits
        else if |digits| == 11 && StartsWith(digits, "1") then "+" + digits
        else phone;
    if formatted == "" then None else Some(formatted)
  }

  /** A complete display value (ten digits) is sent as `+1` and those ten digits. */
  lemma DisplayThenSubmit(value: string)
    requires |Digits(value)| >= 10
    ensures SubmissionPhone(FormatPhoneDisplay(value)) == Some("+1" + Digits(value)[..10])
  {
    DisplayDigits(value);
  }

  /** The kinds of input the steps show. */
  datatype InputKind = TextInput | EmailInput | TelInput | TextareaInput | ConsentInput

  datatype Step = Step(field: string, kind: InputKind)

  /** The five steps, in order. */
  const Steps: seq<Step> := [
    Step("first_name", TextInput),
    Step("email", EmailInput),
    Step("phone", TelInput),
    Step("question", TextareaInput),
    Step("consent", ConsentInput)
  ]

  /** The values held by the form. */
  datatype FormData = FormData(firstName: string, email: string, question: string, phone: string, consent: bool)

  /** The JSON body posted to `/api/leads`. */
  datatype LeadRequest = LeadRequest(firstName: string, email: string, question: string, phone: Option<string>, source: string)

  /** What `fetch('/api/leads')` did: an OK response, another response, or a network error. */
  datatype FetchOutcome = ResponseOk | ResponseNotOk | NetworkError

  /** The request body built from the form values. */
  function RequestPayload(data: FormData): (r: LeadRequest)
    ensures r.source == "website_modal"
    ensures r.firstName == data.firstName && r.email == data.email && r.question == data.question
    ensures r.phone == SubmissionPhone(data.phone)
  {
    LeadRequest(data.firstName, data.email, data.question, SubmissionPhone(data.phone), "website_modal")
  }

  const ConsentField := "consent"

  class LeadFormWizard {
    var currentStep: int
    var isSubmitting: bool
    var isSubmitted: bool
    /** The fields whose validation error is displayed. */
    var errors: set<string>

    /** The step index stays within the five steps; a submission has finished by the time a handler returns. */
    ghost predicate Valid()
      reads this
    {
      0 <= currentStep < |Steps| && !isSubmitting
    }

    predicate IsLastStep()
      reads this
    {
      currentStep == |Steps| - 1
    }

    constructor ()
      ensures Valid()
      ensures currentStep == 0 && !isSubmitting && !isSubmitted && errors == {}
    {
      currentStep := 0;
      isSubmitting := false;
      isSubmitted := false;
      errors := {};
    }

    /**
     * `handleNext`. `fieldValid` is what validating the current field gives;
     * `outcome` is what the submission's request does if one is made. The
     * request sent, if any, is returned.
     */
    method Next(data: FormData, fieldValid: bool, outcome: FetchOutcome) returns (sent: Option<LeadRequest>)
      requires Valid()
      modifies this
      ensures Valid()
      // an unchecked consent box shows the consent error and stops there
      ensures Steps[old(currentStep)].kind == ConsentInput && !data.consent ==>
        && errors == old(errors) + {ConsentField}
        && currentStep == old(currentStep) && sent == None && isSubmitted == old(isSubmitted)
      // otherwise the field is validated; a valid field advances by one, or submits on the last step
      ensures !(Steps[old(currentStep)].kind == ConsentInput && !data.consent) ==>
        var field := Steps[old(currentStep)].field;
        && errors == (if fieldValid then old(errors) - {field} else old(errors) + {field})
        && (!fieldValid ==> currentStep == old(currentStep) && sent == None && isSubmitted == old(isSubmitted))
        && (fieldValid && old(currentStep) < |Steps| - 1 ==>
              currentStep == old(currentStep) + 1 && sent == None && isSubmitted == old(isSubmitted))
        && (fieldValid && old(currentStep) == |Steps| - 1 ==>
              currentStep == old(currentStep) && sent == Some(RequestPayload(data))
              && isSubmitted == (old(isSubmitted) || outcome == ResponseOk))
    {
      var step := Steps[currentStep];
      if step.kind == ConsentInput && !data.consent {
        errors := errors + {ConsentField};
        return None;
      }
      if fieldValid {
        errors := errors - {step.field};
      } else {
        errors := errors + {step.field};
      }
      sent := None;
      if fieldValid {
        if IsLastStep() {
          var request := Submit(data, outcome);
          sent := Some(request);
        } else {
          currentStep := currentStep + 1;
        }
      }
    }

    /** `handleSubmit`: posts the payload; only an OK response marks the form as submitted. */
    method Submit(data: FormData, outcome: FetchOutcome) returns (request: LeadRequest)
      requires Valid()
      modifies this`isSubmitting, this`isSubmitted
      ensures request == RequestPayload(data)
      ensures isSubmitted == (old(isSubmitted) || outcome == ResponseOk)
      ensures Valid()
    {
      isSubmitting := true;
      request := RequestPayload(data);
      if outcome == ResponseOk {
        isSubmitted := true;
      }
      isSubmitting := false;
    }

    /** `handleBack`: one step back, never below the first step. */
    method Back()
      requires Valid()
      modifies this`currentStep
      ensures Valid()
      ensures currentStep == if old(currentStep) > 0 then old(currentStep) - 1 else 0
    {
      if currentStep > 0 {
        currentStep := currentStep - 1;
      }
    }
  }
}
