# Lead intake: a Dafny model

This project models the logic a small marketing site uses to take in sales leads.
Visitors fill in contact and lead forms. Server routes validate what they send and
store it in Supabase. The routes then hand the lead to Brevo (contacts and
transactional email), ClickUp (tasks), and Slack (notifications). Two client-side
utilities are modelled as well: phone formatting and a negative-keyword generator.

Every network or SDK call is a parameter of the model: the status and body a
response would have, the error a call would throw, or the outcome of each try of a
retried call. A handler therefore becomes a decision procedure. It maps a request
and those outcomes to the reply it sends and to the calls it makes, in order.
Environment variables are parameters too; `""` stands for an unset one.

Shared modules:

- `Outcomes`: `Option` and `Result`.
- `Text`: digits, the ECMAScript white-space set, `trim`, ASCII lower case, substrings, decimal rendering and `join`.
- `JsonValue`: JavaScript scalars as handlers read them from a parsed JSON body, with `undefined`, truthiness, `String(v)` and object spread.
- `Zod`: the few zod schema checks the routes use.
- `BrevoSdk`: the shapes of the errors, contacts and recipients that Brevo hands back.

There is one module for each source file:

- `Phone`: server/utils/phone.ts
- `MultiStepLeadForm`: components/multi-step-lead-form.tsx
- `NegativeKeywords`: client/src/components/NegativeKeywordGenerator.tsx
- `SubmissionRoute`: app/api/submit/route.js
- `ContactFormRoute`: app/api/submit/route.ts
- `LeadsRoute`: app/api/leads/route.ts
- `BrevoLeadsRoute`: src/app/api/leads/route.ts
- `ContactApi`: api/contact.ts
- `ClickUpService`: lib/clickup.service.ts
- `ClickUpClient`: server/utils/clickupClient.ts
- `ClickUpForm`: server/utils/clickup.ts
- `SlackNotify`: server/utils/slack.ts
- `BrevoService`: lib/brevo.service.ts
- `BrevoFetch`: server/utils/brevo.ts
- `ContactRoutes`: server/routes/contact.ts
- `BrevoRetry`: src/utils/brevoClient.ts
- `BrevoAxios`: server/utils/brevoClient.ts

The form wizard, the ClickUp service and the Brevo service are classes. The retry
loop, the handlers, and the array-pushing builders are methods with loops or
step-by-step updates. The rest is functions and lemmas.

## Model

| member | source | states |
|---|---|---|
| Phone.FormatPhoneNumber | server/utils/phone.ts:16-31 | empty input is "Phone number is required"; a digit count other than 10 is the length error; a result is 12 characters, "+1" then the input's digits in order |
| Phone.SameDigitsSameResult | server/utils/phone.ts:22 | two non-empty inputs with the same digits, such as "(555) 123-4567" and "555.123.4567", give the same result |
| Phone.ResultDigits | server/utils/phone.ts:22-30 | the digits of a result are "1" followed by the input's ten digits |
| Phone.NotIdempotent | server/utils/phone.ts:22-30 | a result fed back in has eleven digits and is rejected with the length error |
| Text.Digits | server/utils/phone.ts:22 | `replace(/\D/g, '')` keeps only digits and never lengthens its input |
| Text.DigitsAppend | components/multi-step-lead-form.tsx:169 | the digits of a concatenation are the concatenation of the digits |
| Text.DigitsOfDigits | components/multi-step-lead-form.tsx:169 | removing non-digits from an all-digit string changes nothing |
| Text.DigitsOfNoDigits | components/multi-step-lead-form.tsx:176 | a string without digits has no digits left |
| Text.TrimStart | app/api/submit/route.ts:24 | the result is no longer than the input and does not start with white space |
| Text.TrimEnd | app/api/submit/route.ts:24 | the result is a prefix of the input and does not end with white space |
| Text.Trim | app/api/submit/route.ts:24 | the result is no longer than the input and has white space at neither end |
| Text.TrimOfTrimmed | app/api/submit/route.ts:71-74 | trimming a string with no white space at either end changes nothing |
| Text.TrimIdempotent | app/api/submit/route.ts:71-74 | trimming twice is trimming once |
| Text.TrimEmpty | app/api/submit/route.ts:24 | a string trims to empty exactly when it is all white space |
| Text.TrimStartKeeps | app/api/submit/route.ts:24 | a visible character survives trimming at the front, at the shifted index |
| Text.TrimEndKeeps | app/api/submit/route.ts:24 | a visible character survives trimming at the back |
| Text.TrimKeepsVisible | app/api/submit/route.ts:24 | a string with one visible character does not trim to empty |
| Text.TrimEndSpaces | app/api/submit/route.js:162 | trailing white space after a visible end is removed exactly |
| Text.TrimStartSpaces | app/api/submit/route.js:154 | leading white space before a visible start is removed exactly |
| Text.TrimFramed | app/api/submit/route.js:154-162 | white space framing a trimmed core trims to that core |
| Text.Lower | server/utils/brevoClient.ts:49 | lower-casing keeps the length and maps each character |
| Text.LowerCharSpace | server/utils/brevoClient.ts:49 | lower-casing neither creates nor removes white space |
| Text.LowerIdempotent | server/utils/brevoClient.ts:49 | lower-casing twice is lower-casing once |
| Text.ContainsAt | src/utils/brevoClient.ts:110 | a slice equal to a string shows that string is contained |
| Text.ContainsMiddle | src/utils/brevoClient.ts:110 | the middle part of a concatenation is contained in it |
| Text.NatToString | lib/clickup.service.ts:289 | the decimal rendering is non-empty, all digits, with no leading zero except for 0 |
| Text.IntToString | lib/clickup.service.ts:289 | the rendering of any integer is non-empty |
| Text.NatToStringRoundTrip | lib/clickup.service.ts:289 | reading the decimal rendering back gives the number |
| Text.Utf16Length | app/api/submit/route.js:33 | JavaScript's `length` counts UTF-16 code units: between one and two per character |
| Text.Utf16LengthOfBmp | app/api/submit/route.js:33 | a string without characters above U+FFFF has one code unit per character |
| MultiStepLeadForm.Prefix | components/multi-step-lead-form.tsx:172 | `slice(0, n)` is the first min(n, length) characters |
| MultiStepLeadForm.FormatPhoneDisplay | components/multi-step-lead-form.tsx:167-182 | at most ten digits are kept; 6 or more give `(ddd) ddd-d…`, 3 to 5 give `(ddd) d…`, fewer give the bare digits |
| MultiStepLeadForm.DigitsOfPunctuation | components/multi-step-lead-form.tsx:176-178 | the display's punctuation has no digits |
| MultiStepLeadForm.DigitsOfThreeGroups | components/multi-step-lead-form.tsx:176 | the digits of `(a) b-c` are a, b and c in order |
| MultiStepLeadForm.DigitsOfTwoGroups | components/multi-step-lead-form.tsx:178 | the digits of `(a) b` are a and b in order |
| MultiStepLeadForm.DisplayDigits | components/multi-step-lead-form.tsx:167-182 | the digits of the display are exactly the first min(10, n) input digits, in order |
| MultiStepLeadForm.DisplayIdempotent | components/multi-step-lead-form.tsx:167-182 | re-formatting a displayed value leaves it unchanged |
| MultiStepLeadForm.SubmissionPhone | components/multi-step-lead-form.tsx:111-121 | an empty phone is omitted; 10 digits become "+1"+digits; 11 digits starting with 1 become "+"+digits; anything else is sent as typed |
| MultiStepLeadForm.DisplayThenSubmit | components/multi-step-lead-form.tsx:111-121 | a display value with ten digits is submitted as "+1" and those ten digits |
| MultiStepLeadForm.RequestPayload | components/multi-step-lead-form.tsx:129-135 | first name, email and question as typed, the converted phone, and source "website_modal" |
| MultiStepLeadForm.LeadFormWizard.constructor | components/multi-step-lead-form.tsx:46-79 | the wizard starts on the first of the five steps, with nothing submitted and no errors |
| MultiStepLeadForm.LeadFormWizard.Next | components/multi-step-lead-form.tsx:81-103 | an unchecked consent box sets the consent error and stays; otherwise an invalid field stays, a valid one advances by one, and on the last step it submits instead; the step index stays within the five steps |
| MultiStepLeadForm.LeadFormWizard.Submit | components/multi-step-lead-form.tsx:105-151 | posts the payload; only an OK response marks the form submitted; submitting is cleared in every case |
| MultiStepLeadForm.LeadFormWizard.Back | components/multi-step-lead-form.tsx:153-157 | one step back, never below step 0 |
| NegativeKeywords.Word | client/src/components/NegativeKeywordGenerator.tsx:9 | the leading run of non-separators, ended by a separator or by the end of the input |
| NegativeKeywords.DropSeparators | client/src/components/NegativeKeywordGenerator.tsx:9 | the suffix left after a leading run of separators |
| NegativeKeywords.Split | client/src/components/NegativeKeywordGenerator.tsx:9 | `split(/[,\s]+/)` gives at least one piece and no piece holds a separator; a text without separators is the single piece itself, and a text with one gives two or more |
| NegativeKeywords.KeepNonBlank | client/src/components/NegativeKeywordGenerator.tsx:9 | filtering never adds pieces, and every kept piece is non-blank |
| NegativeKeywords.KeepNonBlankAppend | client/src/components/NegativeKeywordGenerator.tsx:9 | the filter distributes over concatenation, so it judges each piece on its own |
| NegativeKeywords.KeepNonBlankOne | client/src/components/NegativeKeywordGenerator.tsx:9 | one piece is kept exactly when it is not blank |
| NegativeKeywords.Negatives | client/src/components/NegativeKeywordGenerator.tsx:10 | one "-"+word per word, in input order |
| NegativeKeywords.BlankIsEmpty | client/src/components/NegativeKeywordGenerator.tsx:9 | a piece without separators is blank exactly when it is empty |
| NegativeKeywords.AllCleanCons | client/src/components/NegativeKeywordGenerator.tsx:9 | a clean word in front of clean words keeps them all clean |
| NegativeKeywords.KeptWordsAreClean | client/src/components/NegativeKeywordGenerator.tsx:9 | the pieces that survive the filter are non-empty and hold no comma or white space |
| NegativeKeywords.WordsAreClean | client/src/components/NegativeKeywordGenerator.tsx:9 | every word of any input is non-empty and holds no comma or white space |
| NegativeKeywords.KeepAllClean | client/src/components/NegativeKeywordGenerator.tsx:9 | the filter keeps every clean word |
| NegativeKeywords.JoinStart | client/src/components/NegativeKeywordGenerator.tsx:11 | a space-joined list starts with the first word's first character |
| NegativeKeywords.WordOfClean | client/src/components/NegativeKeywordGenerator.tsx:9 | a clean word followed by a separator is read back as that word |
| NegativeKeywords.JoinCons | client/src/components/NegativeKeywordGenerator.tsx:11 | joining with single spaces unfolds one word at a time |
| NegativeKeywords.SplitWord | client/src/components/NegativeKeywordGenerator.tsx:9 | a clean word splits into itself |
| NegativeKeywords.SplitCons | client/src/components/NegativeKeywordGenerator.tsx:9 | a word, a space and more text split into the word, then the split of the rest |
| NegativeKeywords.SplitJoin | client/src/components/NegativeKeywordGenerator.tsx:9-11 | splitting clean words joined by single spaces gives the words back |
| NegativeKeywords.WordsDropSeparators | client/src/components/NegativeKeywordGenerator.tsx:9 | leading separators contribute no word |
| NegativeKeywords.WordsAfterSeparators | client/src/components/NegativeKeywordGenerator.tsx:9 | any run of commas and white space in front of a text contributes no word |
| NegativeKeywords.WordsOfWordStart | client/src/components/NegativeKeywordGenerator.tsx:9 | a text starting with a word gives that word, then the words of the rest |
| NegativeKeywords.WordsOfWordThen | client/src/components/NegativeKeywordGenerator.tsx:9 | a clean word followed by a separator or by nothing is the first word |
| NegativeKeywords.WordsAroundSeparators | client/src/components/NegativeKeywordGenerator.tsx:9 | the words of `a`, a non-empty run of separators and `b` are the words of `a` then the words of `b`: the input is cut at every run of commas and white space, wherever it is, and blank pieces vanish |
| NegativeKeywords.NegativesAreClean | client/src/components/NegativeKeywordGenerator.tsx:10 | prefixing "-" keeps every word clean: no output token holds a comma or white space |
| NegativeKeywords.NoWordsInEmpty | client/src/components/NegativeKeywordGenerator.tsx:9 | the empty input has no words |
| NegativeKeywords.WordsOfJoin | client/src/components/NegativeKeywordGenerator.tsx:11 | clean tokens joined by spaces read back as the same tokens |
| NegativeKeywords.OutputTokens | client/src/components/NegativeKeywordGenerator.tsx:8-12 | the output's tokens are "-"+word for each input word in order, so their count equals the number of non-empty words |
| NegativeKeywords.SeparatorsOnly | client/src/components/NegativeKeywordGenerator.tsx:9-11 | empty or separator-only input gives the empty string |
| JsonValue.Get | app/api/submit/route.ts:21 | a key reads as defined exactly when the body has it |
| JsonValue.TruthyText | lib/brevo.service.ts:75 | a truthy value never renders as the empty string |
| JsonValue.Spread | server/routes/contact.ts:29-32 | `{...base, ...over}` has the keys of both; a key of `over` takes its value, any other keeps base's |
| JsonValue.SpreadAgain | server/routes/contact.ts:29-32 | spreading the same object twice changes nothing, and spreading `{}` changes nothing |
| Zod.RequiredString | app/api/leads/route.ts:7 | `z.string().min(n)` accepts exactly strings whose JavaScript length (UTF-16 code units) is at least n; an absent value is "Required" |
| Zod.EmailString | app/api/leads/route.ts:8 | `z.string().email()` accepts exactly the strings the address predicate accepts |
| Zod.OptionalString | app/api/leads/route.ts:10-13 | `z.string().optional()` accepts an absent value or a string, and nothing else (null included) |
| Zod.Issues | app/api/leads/route.ts:21 | an issue for every failing field and only for those, none exactly when every check passes |
| SubmissionRoute.StringField | app/api/submit/route.js:33-35 | the minimum length, in UTF-16 code units, is checked on the untrimmed string, and the value kept is trimmed |
| SubmissionRoute.EmailField | app/api/submit/route.js:34 | accepted exactly when the address predicate holds, with the trimmed value kept |
| SubmissionRoute.ConsentField | app/api/submit/route.js:36-38 | only `true` passes; `false` gets the consent message |
| SubmissionRoute.FieldErrors | app/api/submit/route.js:72-83 | the error map is empty exactly when every check passes; each failing field, and only those, maps to its message |
| SubmissionRoute.Validate | app/api/submit/route.js:32-39 | the submission when all four checks pass, otherwise a non-empty map covering every failing field |
| SubmissionRoute.ValidatedIsTrimmed | app/api/submit/route.js:33-35 | every validated string field is trimmed |
| SubmissionRoute.BlankQuestionAccepted | app/api/submit/route.js:35 | five spaces pass the question's length check and are stored as the empty question |
| SubmissionRoute.MinCountsCodeUnits | app/api/submit/route.js:33 | a first name of one emoji (two code units) passes `min(2)`; a single letter gets "First name must be at least 2 characters" |
| SubmissionRoute.ContactData | app/api/submit/route.js:131-141 | email and FIRSTNAME from the submission and updates always enabled; list ids only for a numeric BREVO_LIST_ID |
| SubmissionRoute.ListIdRoundTrip | app/api/submit/route.js:139-141 | a list id written in decimal is sent as that number |
| SubmissionRoute.DatePart | app/api/submit/route.js:153 | `split('T')[0]` is the longest prefix without a 'T' |
| SubmissionRoute.DescriptionShape | app/api/submit/route.js:154-162 | the trimmed description is the fixed header, then the question on its own line when it is not empty |
| SubmissionRoute.Post | app/api/submit/route.js:53-199 | bad JSON is 400 and a validation failure is 400 with the error map, both before any call; no database is 500 with no insert; an insert error is 500 and Brevo and ClickUp are not tried; after an insert, each configured integration is tried, its failure is only recorded, and the reply is success with the inserted id |
| ContactFormRoute.OptionalTrim | app/api/submit/route.ts:24 | `v?.trim()` gives a string's trim, gives undefined for undefined or null, and throws for any other value |
| ContactFormRoute.WhiteSpaceIsBlank | app/api/submit/route.ts:24 | a white-space-only name is blank |
| ContactFormRoute.VisibleIsNotBlank | app/api/submit/route.ts:24 | a value with a visible character is not blank |
| ContactFormRoute.WordBetweenChars | app/api/submit/route.ts:58 | `[^\s@]+` over a range holds exactly when the range is non-empty and has no white space and no '@' |
| ContactFormRoute.SplitsChars | app/api/submit/route.ts:58 | a split into local, domain and suffix puts word characters everywhere but the '@' and the '.' |
| ContactFormRoute.EmailFormatShape | app/api/submit/route.ts:58-59 | a matching address has no white space, exactly one '@' with text on both sides, and is its own trim |
| ContactFormRoute.EmailFormatAccepts | app/api/submit/route.ts:58 | "ann@example.com" matches |
| ContactFormRoute.EmailFormatNeedsDot | app/api/submit/route.ts:58 | "ann@example" does not match |
| ContactFormRoute.EmailFormatRejectsSpace | app/api/submit/route.ts:58 | "ann smith@example.com" does not match |
| ContactFormRoute.RefusalBody | app/api/submit/route.ts:24-95 | a missing key is 500; every validation refusal is 400 |
| ContactFormRoute.RejectionDetails | app/api/submit/route.ts:111-117 | Brevo's message when truthy, otherwise the default text |
| ContactFormRoute.Cleaned | app/api/submit/route.ts:71-81 | the submitted first name and email trimmed (non-empty, matching the pattern); the phone as `String(phone).trim()` exactly when it is truthy; consent "Yes"; phone_consent "Yes" or "No" by its truthiness; source "Website Contact Form"; the timestamp given |
| ContactFormRoute.CleanedIsTrimmed | app/api/submit/route.ts:71-81 | the name, email and phone sent are their own trim, and a submitted name or email that was already trimmed is sent unchanged |
| ContactFormRoute.Post | app/api/submit/route.ts:3-135 | checks in order (name, email, consent, email format), the first failure wins; a non-string name or email is the catch's 500; the key is checked only for valid input; Brevo gets the cleaned properties; its refusal returns Brevo's own status; success only on an OK response |
| LeadsRoute.Checks | app/api/leads/route.ts:6-14 | each schema field in declared order, with its check's message if it fails |
| LeadsRoute.IssuesNameFailingFields | app/api/leads/route.ts:6-14 | an issue names a field exactly when that field's check fails with that message |
| LeadsRoute.Validate | app/api/leads/route.ts:21 | the lead exactly when there are no issues, otherwise the issues |
| LeadsRoute.ValidLeadFields | app/api/leads/route.ts:7-13 | a parsed lead has a non-empty first name, a valid email and a non-empty question, all the body's own; each optional field is present exactly when the body has it, and then it is the body's string |
| LeadsRoute.BuildInsertData | app/api/leads/route.ts:43-61 | the row it builds is the lead's `insertData`: first_name, email, question and source (default "website"), plus name, phone and message exactly when non-empty, each with the lead's value |
| LeadsRoute.InsertDataUnique | app/api/leads/route.ts:43-61 | the description of `insertData` allows exactly one row per lead |
| LeadsRoute.Post | app/api/leads/route.ts:16-107 | a schema failure is 400 with its issues; a missing key is 500 with no insert; the row inserted is the validated lead's `insertData`; an insert error is 500 with message and code; success is 201 with the id; anything else is 500 "Internal server error" |
| BrevoLeadsRoute.Checks | src/app/api/leads/route.ts:6-12 | each schema field in declared order, with its check's message if it fails |
| BrevoLeadsRoute.Validate | src/app/api/leads/route.ts:18 | the lead exactly when there are no issues, otherwise the issues |
| BrevoLeadsRoute.ValidLeadFields | src/app/api/leads/route.ts:7-11 | a parsed lead has a non-empty first name and a valid email, both the body's own; phone, message and company are the body's strings when present and '' when absent |
| BrevoLeadsRoute.IssuesNameFailingFields | src/app/api/leads/route.ts:6-12 | an issue names a field exactly when that field's check fails with that message |
| BrevoLeadsRoute.UpsertPayload | src/app/api/leads/route.ts:21-30 | the contact has FIRSTNAME, PHONE, COMPANY and MESSAGE from the lead ('' when absent) and SOURCE "Website Form", with updates enabled |
| BrevoLeadsRoute.ErrorReply | src/app/api/leads/route.ts:75-86 | 429 exactly for an error whose response status is 429, otherwise the generic 500 |
| BrevoLeadsRoute.Upsert | src/app/api/leads/route.ts:21-30 | sends the lead's contact through the retry loop |
| BrevoLeadsRoute.Send | src/app/api/leads/route.ts:33-56 | sends one email through the retry loop |
| BrevoLeadsRoute.RetriedIsFinal | src/utils/brevoClient.ts:19-35 | a 429 never comes out of the retry loop |
| BrevoLeadsRoute.Deliver | src/app/api/leads/route.ts:20-61 | upsert, confirmation and admin email run in order, each only after the previous succeeded; success needs all three; any failure is the 500 reply |
| BrevoLeadsRoute.Post | src/app/api/leads/route.ts:14-87 | a schema failure is 400 with its issues and no call; Brevo is called only for a valid lead; success means all three steps succeeded; a Brevo failure is 500, so the 429 reply is never sent |
| BrevoRetry.Backoff | src/utils/brevoClient.ts:28 | the k-th wait is delay·2^k |
| BrevoRetry.BackoffDoubles | src/utils/brevoClient.ts:28 | each wait doubles the previous one |
| BrevoRetry.DefaultBackoff | src/utils/brevoClient.ts:19 | with the defaults the waits are 2000, 4000 and 8000 ms |
| BrevoRetry.SendWithRetry | src/utils/brevoClient.ts:19-35 | at most maxRetries calls (none when maxRetries ≤ 0); every call before the last got 429; the first success or non-429 error is returned with nothing after it; otherwise "Maximum retries reached"; a 429 never comes out |
| BrevoRetry.ContactPayload | src/utils/brevoClient.ts:44-51 | FIRSTNAME first, caller attributes override it, updates always enabled |
| BrevoRetry.CreateOrUpdateContact | src/utils/brevoClient.ts:38-62 | sends that payload with the default retry policy, one to three calls |
| BrevoRetry.EmailPayload | src/utils/brevoClient.ts:72-81 | sender EMAIL_FROM or the default address, named "AdVelocity"; the rest as given |
| BrevoRetry.SendTransactionalEmail | src/utils/brevoClient.ts:65-92 | sends that payload with the default retry policy, one to three calls |
| BrevoRetry.TemplateQuotesMessage | src/utils/brevoClient.ts:105-113 | a non-empty message is quoted in the email; an empty one leaves no message block |
| BrevoSdk.BodyField | lib/brevo.service.ts:67 | `error.response?.body?.key` is defined exactly when the body has the key |
| ContactApi.Channel | api/contact.ts:45 | SLACK_CHANNEL_ID when set, otherwise "general"; never empty |
| ContactApi.SlackTextShowsFields | api/contact.ts:46-49 | the Slack text shows the name, email and message as given |
| ContactApi.ConfirmationQuotesMessage | api/contact.ts:63-70 | the confirmation email contains the message |
| ContactApi.Confirmation | api/contact.ts:61-72 | addressed to the body's email and name, from the fixed sender, with the fixed subject |
| ContactApi.Handler | api/contact.ts:13-102 | a non-POST method is 405; a missing field is 400; Slack is tried only with a token, then the email whether or not Slack failed; a complete POST is 200 success whatever both did |
| ClickUpService.DescriptionLines | lib/clickup.service.ts:221-249 | contact lines, a phone line exactly when there is a phone, lead details with the lead id, the question, then the footer |
| ClickUpService.FieldsMatchAppend | lib/clickup.service.ts:254-293 | pushing a wanted field keeps fields and kinds in step |
| ClickUpService.CustomFieldsFollowSelected | lib/clickup.service.ts:254-293 | the custom fields are exactly one per selected kind, in the same order |
| ClickUpService.SelectedExactlyWanted | lib/clickup.service.ts:258-291 | a field appears exactly when its id is configured, and for phone when there is a phone |
| ClickUpService.SelectedInOrder | lib/clickup.service.ts:254-293 | the fields come in the order email, phone, source, lead date, lead id, each at most once |
| ClickUpService.RankBelow | lib/clickup.service.ts:254-293 | which kind an index of the concatenated parts holds |
| ClickUpService.LeadIdValueRoundTrip | lib/clickup.service.ts:286-291 | the lead-id field's value reads back as the lead id |
| ClickUpService.ResponseOf | lib/clickup.service.ts:77-97 | an OK response gives its data; any other gives err, else error, else "HTTP status", with the status; a throw gives its message or "Network error" |
| ClickUpService.DefaultErrorOnlyForEmptyThrow | lib/clickup.service.ts:46-51 | "Failed to create task" is reached only through a thrown Error with an empty message |
| ClickUpService.ClickUpService.constructor | lib/clickup.service.ts:17-22 | the base URL defaults to the public API's |
| ClickUpService.ClickUpService.FormatLeadDescription | lib/clickup.service.ts:221-249 | the pushed lines joined with newlines equal the description lines |
| ClickUpService.ClickUpService.BuildCustomFields | lib/clickup.service.ts:254-294 | the pushed fields equal the custom fields for the lead |
| ClickUpService.ClickUpService.CreateTask | lib/clickup.service.ts:64-98 | POST to the list's task URL with the key; the response mapping |
| ClickUpService.ClickUpService.GetTask | lib/clickup.service.ts:103-136 | "?include_subtasks=true" only when asked for; the response mapping |
| ClickUpService.ClickUpService.UpdateTask | lib/clickup.service.ts:141-175 | PUT to the task URL; the response mapping |
| ClickUpService.ClickUpService.AddTaskComment | lib/clickup.service.ts:180-216 | POST `{comment_text}` to the comment URL; the response mapping |
| ClickUpService.ClickUpService.TestConnection | lib/clickup.service.ts:299-332 | GET the user URL; the response mapping |
| ClickUpService.ClickUpService.CreateLeadTask | lib/clickup.service.ts:27-59 | name "New Lead: first - email", tags [source, "lead", "new"], priority 3, notify_all false, the description and custom fields; success exactly when the API succeeds, with its id and URL; otherwise its error or "Failed to create task" |
| ClickUpClient.Classify | server/utils/clickupClient.ts:99-127 | a response makes an API error (checked first), else a request a NETWORK one, else UNEXPECTED; never VALIDATION; the messages as written |
| ClickUpClient.CreateTask | server/utils/clickupClient.ts:66-128 | without token or list id, a VALIDATION error saying which is missing and nothing sent; otherwise the post and its data or its classified error |
| ClickUpClient.GetTask | server/utils/clickupClient.ts:130-151 | only the token is required; the API fallback is "Failed to get task" |
| ClickUpClient.UpdateTask | server/utils/clickupClient.ts:153-173 | only the token is required; the API fallback is "Failed to update task" |
| ClickUpClient.ValidationOnlyBeforeSending | server/utils/clickupClient.ts:67-73 | a VALIDATION error happens exactly when nothing was sent |
| ClickUpClient.ErrorMessagesNonEmpty | server/utils/clickupClient.ts:66-173 | every thrown error has a non-empty message |
| ClickUpForm.OrNotProvided | server/utils/clickup.ts:32-33 | an empty value shows "Not provided" |
| ClickUpForm.YesNo | server/utils/clickup.ts:39-40 | "Yes" exactly for true, otherwise "No" |
| ClickUpForm.DescriptionLines | server/utils/clickup.ts:29-42 | the description's lines: name, email, phone and company (or "Not provided"), submission id, question, both consents, date |
| ClickUpForm.FormTask | server/utils/clickup.ts:44-54 | name "New Lead: first", status "to do", priority 3, no dates, no assignees, tags or custom fields |
| ClickUpForm.CreateTaskFromForm | server/utils/clickup.ts:22-58 | a missing token or list id throws with nothing sent; otherwise the form's task (`FormTask`) is posted to "/list/<listId>/task", and the result is the created task or an error with the client's message |
| ClickUpForm.FailureKeepsClientMessage | server/utils/clickup.ts:55-58 | once configured, a failure carries the client's message, never "Failed to create ClickUp task" |
| SlackNotify.LeadFields | server/utils/slack.ts:32-53 | exactly four fields: name, email, phone (or "Not provided"), marketing consent (✅ only for true) |
| SlackNotify.LeadMessage | server/utils/slack.ts:22-65 | channel "#ticketpeak", the header first, the fields block, and the question block exactly when a question is given |
| SlackNotify.QuestionBlockIffGiven | server/utils/slack.ts:57-65 | a text block other than the header exists exactly when the question is given |
| SlackNotify.SendLeadNotification | server/utils/slack.ts:6-85 | no token posts nothing; otherwise the lead's message is posted and any outcome returns normally |
| BrevoService.SmsAcceptedIff | lib/brevo.service.ts:44-50 | the SMS gate accepts exactly "+" followed by 9 to 15 digits, the first not zero |
| BrevoService.ContactAttributes | lib/brevo.service.ts:37-50 | FIRSTNAME and LASTNAME default to '', caller attributes override them, SMS only when it passes the gate |
| BrevoService.ErrorText | lib/brevo.service.ts:74-77 | body message, else error message, else "Unknown error"; never empty |
| BrevoService.Failed | lib/brevo.service.ts:112-115 | success false with the error text |
| BrevoService.IdText | lib/brevo.service.ts:59-62 | the id's text, absent for a missing or null id |
| BrevoService.BrevoService.constructor | lib/brevo.service.ts:17-26 | the default list id defaults to 1 |
| BrevoService.BrevoService.CreateContact | lib/brevo.service.ts:31-79 | the contact sent (attributes, SMS gate, list ids default [defaultListId]); "duplicate_parameter" is success with "Contact already exists" and no id; any other error is the failure reply |
| BrevoService.BrevoService.SendEmail | lib/brevo.service.ts:84-117 | text content, params and tags set only when supplied; the message id or the failure reply |
| BrevoService.BrevoService.GetContact | lib/brevo.service.ts:122-138 | the contact, or the failure reply |
| BrevoService.BrevoService.UpdateContact | lib/brevo.service.ts:143-166 | attributes and list ids set only when supplied; success or the failure reply |
| BrevoFetch.SendEmail | server/utils/brevo.ts:16-64 | without a key nothing is sent or returned; the default sender when none is given; a non-OK response throws with its status text |
| BrevoFetch.UpdateBody | server/utils/brevo.ts:110-116 | the params as given, with attributes the stored ones spread under the new ones |
| BrevoFetch.UpdateKeepsStoredAttributes | server/utils/brevo.ts:110-116 | every stored attribute survives, and a new one wins over a stored one |
| BrevoFetch.CreateError | server/utils/brevo.ts:127-130 | the body's message or "Failed to create contact"; never empty |
| BrevoFetch.CreateContact | server/utils/brevo.ts:66-136 | no key throws before any request; only a 400 saying "already exists" leads to lookup, then update; the looked-up contact is returned, not the update's answer; a failed lookup or update throws its own message |
| ContactRoutes.UpdateParams | server/routes/contact.ts:29-37 | the original params except attributes, which are existing spread under new |
| ContactRoutes.UpdateParamsSettle | server/routes/contact.ts:29-37 | merging the same params again changes nothing |
| ContactRoutes.CreateContact | server/routes/contact.ts:13-44 | no key throws before any call; a successful create is returned as is; "already exists" leads to lookup, then update, whose result is returned; no id throws "Failed to get contact ID"; any other error is re-thrown unchanged |
| ContactRoutes.EmailWithSender | server/routes/contact.ts:53-56 | the default sender unless the params carry one |
| ContactRoutes.SendEmail | server/routes/contact.ts:47-63 | no key throws before any call; otherwise the email with its sender, and the SDK's answer or error |
| BrevoAxios.CleanEmailIdempotent | server/utils/brevoClient.ts:48-50 | a cleaned address has no white space at either end, and cleaning it again changes nothing |
| BrevoAxios.Recipients | server/utils/brevoClient.ts:62 | every recipient is cleaned, keeping count and order |
| BrevoAxios.RecipientsClean | server/utils/brevoClient.ts:62 | cleaning the recipients again changes nothing |
| BrevoAxios.ErrorText | server/utils/brevoClient.ts:69 | response message, else error message, else the fallback; never empty |
| BrevoAxios.Or | server/utils/brevoClient.ts:66 | `v || d` |
| BrevoAxios.SendEmail | server/utils/brevoClient.ts:53-71 | cleaned recipients, the default sender; messageId or ''; the error text |
| BrevoAxios.CreateContact | server/utils/brevoClient.ts:74-93 | cleaned email, attributes {} and listIds [] by default, updates enabled; id or 0 |
| BrevoAxios.ContactInfoOf | server/utils/brevoClient.ts:99-109 | each truthy field is kept and each falsy one takes its default: '', 0, false or {} |
| BrevoAxios.ContactInfoSettles | server/utils/brevoClient.ts:99-109 | defaulting an answer that was already defaulted changes nothing |
| BrevoAxios.GetContactInfo | server/utils/brevoClient.ts:96-117 | null exactly on a 404; any other error throws with its text |
| BrevoAxios.UpdateContact | server/utils/brevoClient.ts:120-136 | the PUT with defaults; success exactly when there is no error |
| BrevoAxios.SendEmailWithTemplate | server/utils/brevoClient.ts:139-157 | cleaned recipients, params {} by default; messageId or '' |

## Left out

- Networking, SDKs, logging and timing. The Supabase, Brevo, ClickUp and Slack calls are parameters given as outcomes. `console` output is not modelled. The waits of the retry loop are returned rather than slept. A rejected `fetch` is modelled only where the code catches it.
- BrevoFetch.CreateContact: a 400 that does not say "already exists" reads the response body a second time (server/utils/brevo.ts:85 and 128). At run time that second read throws. The model returns the body's message or the default instead.
- ContactFormRoute.Post: a truthy name or email that is not a string throws a TypeError from `trim`. The model gives the catch-block reply without modelling the TypeError's text.
- SubmissionRoute.ContactData: "numeric" BREVO_LIST_ID means a non-empty run of ASCII digits. `isNaN`/`parseInt` accept more forms (signs, white space, a numeric prefix), and those are not modelled.
- SubmissionRoute.Post: the outer catch (500 "Internal server error") cannot be reached in the model, since every modelled step is caught where it happens. OPTIONS and CORS headers are not modelled.
- Dates and locale are opaque strings given as parameters: `new Date()`, `toISOString`, `toLocaleDateString`.
- zod's `.email()` is a predicate parameter. zod's type-error texts are abbreviated, and the issue paths and codes are not modelled.
- Unicode is limited. White space is the fixed ECMAScript set, and `toLowerCase` is ASCII only. Lengths checked by zod are counted in UTF-16 code units, as JavaScript counts them.
- JSON is limited to scalars in a flat object. Arrays, nested objects, fractional numbers and non-object bodies are not modelled, and neither is key order in a spread.
- The GET handler of app/api/leads/route.ts is not modelled.
- From src/utils/brevoClient.ts:
  - the module-load throw when BREVO_API_KEY is missing is not modelled;
  - the `welcomeTemplate` is not modelled.
- ClickUpService.ClickUpService.CreateLeadTask: its outer catch cannot be reached, because `createTask` never throws.
- server/utils/clickup.ts reads the environment at call time, and the model takes it as a parameter. `communicationConsent` is not used by server/utils/slack.ts.
- BrevoService.BrevoService.constructor: the key only configures the SDK clients.
- lib/brevo.types is not part of this model. `CreateContactParams` is inferred from how it is used.
- lib/clickup.types.ts is not part of this model. Its shapes are written out in the datatypes.
- MultiStepLeadForm.LeadFormWizard.Next: `handleSubmit` is started without `await`. The model runs it to completion inside `Next`.
- MultiStepLeadForm.LeadFormWizard: validation of each field is a boolean parameter. The close timer is not modelled, and neither is the rest of the UI.

## Behaviour worth knowing

- Neither app/api/submit/route.js nor app/api/submit/route.ts lower-cases a submitted email; both only trim it. Only server/utils/brevoClient.ts lower-cases addresses.
- app/api/submit/route.ts reports only the first failing check, in the order name, email, consent, email format. app/api/submit/route.js reports every failing field.
- lib/brevo.service.ts reports a duplicate contact as success without a contact id.
- src/app/api/leads/route.ts maps a 429 error to a 429 reply. Every Brevo call there goes through `sendWithRetry`, which turns repeated 429s into an error without a response. So the route never sends 429, as `BrevoLeadsRoute.Post` states.
