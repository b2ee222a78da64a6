# InvestorMatch AI: a Dafny model of the client's decision logic

InvestorMatch AI is a React client that helps founders find investors, draft outreach with an LLM, and
manage a subscription. This project models the parts of it that decide or compute something, and proves
what they promise:

- **Investor search and provider state** (`src/contexts/DataContext.jsx`).
  - `searchInvestors` is a chain of up to three case-insensitive filters: industry by containment, stage
    by equality, location by containment.
  - `getInvestorById` is a `find`.
  - `saveOutreachMessage` and `saveCompany` update the provider's state. They are the methods of the
    class `DataContext.DataProvider`.
- **Prompt helpers** (`src/utils/prompts.js`).
  - Three prompt builders, written as template literals with optional sections.
  - The subject-line tables and their first-occurrence `replace` chain, including the `$` patterns of a
    replacement string.
  - `validatePromptInputs`, a method that pushes one error per missing field.
- **AI service** (`src/services/openai.js`).
  - The try/catch choice between the generated text, the template fallback and a rethrown error.
  - The five-line subject variant.
  - The fallback letter.
  - The `Re: ` subject of a follow-up.
- **Billing rules** (`src/services/stripe.js`).
  - The plan table and the checkout guard.
  - `canPerformAction`, `getPlanLimits`, `getUsagePercentage` and `getRecommendedPlan`.
- **Configuration** (`src/config/index.js`).
  - The missing required variables.
  - The AI feature flag.
  - The ceiling table, whose outreach entries follow `parseInt(...) || default`. `parseInt` itself is
    modelled: whitespace, sign, `0x` prefix, longest digit run, NaN.
- **Template page** (`src/pages/ResponseTemplates.jsx`): the search and type filter, and the
  150-character preview.

Supporting modules:

- `Wrappers` holds `Option` and `Result`.
- `Text` holds the JavaScript string operations the code uses: `toLowerCase` over ASCII, `includes`,
  `indexOf`, `replace` with a string pattern, `trim`, `split` and `join`.
- `Sequences` holds `Array.prototype.filter` and `find`, with order-preservation and multiset facts.

Conventions of the model:

- A `Math.random()` draw is a parameter `rand` with `0 <= rand < 1`.
- The LLM call is a parameter: a `Completion` holding what the call returned or threw.
- Generated ids and timestamps are parameters.
- Absent required text fields are the empty string. Both are falsy in JavaScript.

## Model

| member | source | states |
|---|---|---|
| DataContext.SearchInvestors | src/contexts/DataContext.jsx:174-199 | the result is the one filter by all active criteria; an investor is kept iff it passes each active criterion; multiplicities are kept or dropped whole; the result is an order-preserving subsequence; with no active criterion (absent, empty or `all`) the list is returned unchanged |
| DataContext.KeepsByParts | src/contexts/DataContext.jsx:177-197 | an investor survives iff it passes the industry, the stage and the location criterion each on its own |
| DataContext.SearchTwice | src/contexts/DataContext.jsx:175-199 | searching a search result is one filter by both sets of criteria |
| DataContext.SearchesCommute | src/contexts/DataContext.jsx:175-199 | two searches give the same list in either order |
| DataContext.SearchOneCriterionAtATime | src/contexts/DataContext.jsx:175-199 | applying the location, stage and industry criteria one at a time gives the same list as all three together |
| DataContext.GetInvestorById | src/contexts/DataContext.jsx:213-215 | nothing iff no investor has the id; otherwise an investor with that id, at the first index holding it |
| DataContext.MockIdsDistinct | src/contexts/DataContext.jsx:14-90 | the built-in investors have pairwise distinct ids |
| DataContext.DraftMessage | src/contexts/DataContext.jsx:203-208 | the message has the data's fields plus `messageId`, `sentAt` and `status`; `status` is `draft` and `sentAt` is the time even when the data supplies them; the data's `messageId` overrides the generated one; every other field is the data's |
| DataContext.CompanyInfo | src/contexts/DataContext.jsx:164-168 | the record has the data's fields plus `companyId` and `createdAt`; `createdAt` is the time; the data's `companyId` overrides the generated one; every other field is the data's |
| DataContext.DataProvider.constructor | src/contexts/DataContext.jsx:154-161 | a new provider holds the given investors and templates, no messages, and the stored company, if any |
| DataContext.DataProvider.SaveOutreachMessage | src/contexts/DataContext.jsx:202-211 | returns the draft and puts it in front of the earlier messages, which are unchanged; nothing else changes |
| DataContext.DataProvider.SaveCompany | src/contexts/DataContext.jsx:163-172 | returns the built record and makes it the company; nothing else changes |
| Prompts.OptionalSection | src/utils/prompts.js:66 | an empty value gives nothing; a non-empty value gives the heading followed by the value |
| Prompts.FundingAskText | src/utils/prompts.js:64 | the funding line is never empty |
| Prompts.CreateOutreachPrompt | src/utils/prompts.js:44-79 | the prompt is the concatenation of the template's pieces, whose funding and context pieces are the ask-or-default and the optional notes section |
| Prompts.OutreachPromptFrame | src/utils/prompts.js:50-78 | the outreach prompt starts with its request and ends with `Write only the email body, no subject line.` |
| Prompts.OutreachFundingAsk | src/utils/prompts.js:64 | the prompt holds `Funding Ask: Not specified` when the ask is absent or empty, and the ask itself otherwise |
| Prompts.OutreachMentions | src/utils/prompts.js:52-60 | the prompt names the investor, the firm and the company, each after its label |
| Prompts.OutreachNotesSection | src/utils/prompts.js:66 | empty notes give the prompt written without notes; non-empty notes insert exactly the `ADDITIONAL CONTEXT:` section into that prompt at one place |
| Prompts.TypeInstruction | src/utils/prompts.js:91-102 | the instruction reads `undefined` exactly for a type outside gentle, urgent, update and meeting |
| Prompts.RequirementLine | src/utils/prompts.js:111 | the updates requirement is chosen exactly for the `update` type |
| Prompts.CreateFollowUpPrompt | src/utils/prompts.js:84-117 | the follow-up prompt is its pieces in order; the type defaults to `gentle` only when absent |
| Prompts.FollowUpTypeLine | src/utils/prompts.js:88-102 | an absent type renders as `gentle` with its instruction; a given type renders with its own instruction |
| Prompts.FollowUpRequirement | src/utils/prompts.js:111 | the prompt holds the requirement line chosen for the type |
| Prompts.FollowUpUpdatesSection | src/utils/prompts.js:107 | empty updates add nothing; non-empty updates insert exactly their section at one place |
| Prompts.Bullets | src/utils/prompts.js:135-137 | one `- ` line per item, in input order |
| Prompts.ListSectionLines | src/utils/prompts.js:135-137 | a non-empty section, split into lines, is its heading followed by one bullet per item in input order |
| Prompts.CreateResponsePrompt | src/utils/prompts.js:122-147 | the response prompt is its pieces in order, with the question and attachment sections among them |
| Prompts.ResponseSections | src/utils/prompts.js:135-137 | the prompt holds both list sections |
| Prompts.ResponseQuestionsSection | src/utils/prompts.js:135 | no questions add nothing; questions insert exactly their section at one place |
| Prompts.ResponseAttachmentsSection | src/utils/prompts.js:137 | no attachments add nothing; attachments insert exactly their section at one place |
| Prompts.SubjectTemplates | src/utils/prompts.js:152-181 | `followUp` and `response` have their own tables; any other message type uses the initial table; every table is non-empty |
| Prompts.PickIndex | src/utils/prompts.js:182 | the drawn index lies inside the table |
| Prompts.PickIndexReaches | src/utils/prompts.js:182 | every index of a table can be drawn |
| Prompts.GenerateSubjectLine | src/utils/prompts.js:180-189 | the subject is some template of the type's table with its tokens filled in |
| Prompts.FillSubject | src/utils/prompts.js:184-188 | the four first-occurrence replacements leave a template without tokens unchanged |
| Prompts.ReplaceOnlyCompany | src/utils/prompts.js:185 | the first `{company}` is replaced by the name and the text around it is kept |
| Prompts.FillCompanyOnly | src/utils/prompts.js:184-188 | a template whose only token is `{company}` shows the company name in its place |
| Prompts.OnlyCompanyToken | src/utils/prompts.js:186-188 | such a template holds no `{firm}`, `{industry}` or `{stage}`, so those replacements leave it unchanged |
| Prompts.FillDollarAmpersand | src/utils/prompts.js:185 | a company named `$&` leaves the `{company}` token in the subject, because `replace` expands `$` patterns |
| Prompts.ValidatePromptInputs | src/utils/prompts.js:194-211 | the errors are one message per missing field, in checking order; `isValid` holds iff there is no error |
| Prompts.CheckField | src/utils/prompts.js:199-205 | one conditional push: the field's message is appended exactly when the field is absent or empty |
| Prompts.ReportedFields | src/utils/prompts.js:199-205 | the reported fields are exactly the missing ones, as a subsequence of the checking order |
| Prompts.PushedErrorsAreFiltered | src/utils/prompts.js:197-205 | pushing field by field gives the messages of the filtered fields |
| Prompts.ErrorsReportMissingFields | src/utils/prompts.js:194-211 | every missing field is reported; every error names a missing field; no errors iff no field is missing |
| Prompts.ErrorsInCheckingOrder | src/utils/prompts.js:199-205 | the errors come in the order investor name, firm, thesis, company name, description, industry |
| Prompts.OnlyDescriptionMissing | src/utils/prompts.js:199-205 | with only the description missing, the errors are exactly `Company description is required` |
| Prompts.OtherFieldsIgnored | src/utils/prompts.js:199-205 | inputs that agree on the six checked fields get the same errors, whatever their stage, check size or funding ask |
| OpenAi.ErrorText | src/services/openai.js:71 | an empty error message gives way to the fixed message |
| OpenAi.GenerateSubjectLine | src/services/openai.js:198-208 | the subject is one of the five lines |
| OpenAi.EverySubjectLineDrawn | src/services/openai.js:207 | each of the five lines can be drawn |
| OpenAi.SubjectNamesCompany | src/services/openai.js:199-205 | every subject line contains the company name |
| OpenAi.SubjectLinesReadFirmAndFocus | src/services/openai.js:199-205 | the lines depend on the investor only through the firm and the stage focus |
| OpenAi.ThesisHead | src/services/openai.js:218 | the quoted thesis part is a comma-free prefix of the thesis, and the whole thesis when it has no comma |
| OpenAi.FallbackMessage | src/services/openai.js:214-238 | the letter starts with `Hi ` and the investor's name, and ends with the postscript |
| OpenAi.Fallback | src/services/openai.js:213-245 | the fallback result is the letter, one of the five subject lines, and null usage |
| OpenAi.FallbackMentions | src/services/openai.js:214-235 | the letter names the investor, the firm and the company |
| OpenAi.FallbackQuotesThesisHead | src/services/openai.js:218 | the focus sentence quotes the thesis up to its first comma, and the whole thesis when it has no comma |
| OpenAi.FallbackNotesLine | src/services/openai.js:227 | empty notes add nothing; notes insert exactly the `Additional context:` line at one place |
| OpenAi.TryOutreach | src/services/openai.js:24-62 | a disabled flag and an empty completion throw errors without a code; a failed call throws its own error; a result exists iff the flag is on and the call returns text |
| OpenAi.CatchOutreach | src/services/openai.js:63-72 | the fallback is returned iff the code is `insufficient_quota` or `rate_limit_exceeded`; otherwise the message, or the fixed one, is rethrown |
| OpenAi.GenerateOutreachMessage | src/services/openai.js:18-73 | every result's subject is one of the five lines, generated or fallback; every rethrown error has a non-empty message |
| OpenAi.OutreachOutcome | src/services/openai.js:18-73 | returned text is trimmed and keeps the call's usage; the fallback comes exactly after a quota or rate-limit failure with the flag on; every other outcome is an error with a non-empty message |
| OpenAi.FallbackHasNoUsage | src/services/openai.js:58-62 | a generated result keeps the call's usage, while the fallback's usage is null |
| OpenAi.GenerateFollowUpMessage | src/services/openai.js:78-123 | a follow-up's subject starts with `Re: `; every rethrown error has a non-empty message |
| OpenAi.FollowUpOutcome | src/services/openai.js:78-123 | a follow-up succeeds iff the call returns text; its subject is `Re: ` followed by one of the five lines; every failure is an error, whatever its code |
| Stripe.SubscriptionPlans | src/services/stripe.js:21-69 | the plan table has exactly the keys free, pro and premium |
| Stripe.PlanTableShape | src/services/stripe.js:21-69 | every plan's id is its key; every plan bills monthly; a plan has a Stripe price iff it costs something; prices rise strictly 0 < 29 < 79; each plan carries its tier's ceilings |
| Stripe.LookupPlan | src/services/stripe.js:232 | a known id gives its plan; an unknown id gives the free plan |
| Stripe.GetPlanLimits | src/services/stripe.js:250-253 | pro and premium give their ceilings; any other id gives the free ceilings |
| Stripe.CanPerformAction | src/services/stripe.js:231-245 | an unknown action is refused; a known action is allowed iff its counter is strictly below the plan's ceiling |
| Stripe.UnknownPlanIsFree | src/services/stripe.js:232 | an unknown plan id is judged, and limited, exactly as the free plan |
| Stripe.CeilingIsFinal | src/services/stripe.js:235-241 | once an action is refused, it stays refused while its counter does not decrease |
| Stripe.HigherTierAllowsMore | src/services/stripe.js:231-245 | with the default ceilings, a higher tier allows whatever a lower tier allows |
| Stripe.FreeOutreachAllowance | src/services/stripe.js:237 | with the default ceilings, the free plan allows outreach iff fewer than five messages were sent this month |
| Stripe.GetUsagePercentage | src/services/stripe.js:258-261 | the sentinel ceiling gives 0 whatever the usage; any other ceiling gives the share used, in percent, capped at 100 |
| Stripe.UsagePercentageBounds | src/services/stripe.js:258-261 | for a positive ceiling the percentage is at most 100, not negative for non-negative usage, and monotone in usage; it is 100 once usage reaches a finite ceiling |
| Stripe.GetRecommendedPlan | src/services/stripe.js:292-296 | the plan is one of the three; free iff at most 5 messages; premium iff more than 50 |
| Stripe.RecommendationMonotone | src/services/stripe.js:292-296 | more outreach never recommends a lower tier |
| Stripe.RecommendationCoversUsage | src/services/stripe.js:292-296 | with the default ceilings, the recommended plan's outreach ceiling covers the volume and every lower tier's does not |
| Stripe.CheckoutPriceId | src/services/stripe.js:80-83 | checkout proceeds iff the plan is pro or premium, with that plan's price id; free and unknown ids fail with `Invalid subscription plan` |
| Config.MissingEnvVars | src/config/index.js:7-14 | a name is missing iff it is required and its variable is unset or empty; names come in declaration order; none is missing iff all are set |
| Config.AiGenerationEnabled | src/config/index.js:51 | AI generation is on only when its variable is set |
| Config.NumberOr | src/config/index.js:57 | an unset variable, NaN and 0 give the default; any other parsed number is used |
| Config.ParseInt | src/config/index.js:57 | text that is empty after leading whitespace, or whose first visible character is neither a sign nor a decimal digit, is NaN |
| Config.ParseIntDecimal | src/config/index.js:57 | `parseInt` reads a decimal run after whitespace and an optional minus sign, whatever non-digit text follows, except that a lone `0` followed by `x` or `X` is a base-16 prefix |
| Config.ParseIntStopsAtLetter | src/config/index.js:57 | `parseInt("12x")` is 12: a trailing letter ends the number |
| Config.ParseIntUndefined | src/config/index.js:57 | an unset variable parses to NaN |
| Config.Limits | src/config/index.js:55-71 | searches and templates are fixed at 10 and 3 for free, 100 and 10 for pro, and the 999999 sentinel for premium |
| Config.DefaultCeilings | src/config/index.js:55-71 | without overrides the tiers are 5/10/3, 50/100/10 and the sentinel, and each ceiling rises from free to pro to premium |
| Config.OverrideCanInvertTiers | src/config/index.js:57-62 | a free outreach override above 50 puts the free ceiling above the pro ceiling: the table does not keep its tiers in order by itself |
| ResponseTemplates.FilteredTemplates | src/pages/ResponseTemplates.jsx:17-22 | a template is listed iff its name or content contains the term (both in lowercase) and the type is `all` or equals the template's type; every copy of a listed template is kept; the list is an order-preserving subsequence |
| ResponseTemplates.EmptySearchListsAll | src/pages/ResponseTemplates.jsx:17-22 | an empty search with type `all` lists every template, in order |
| ResponseTemplates.LongerSearchNarrows | src/pages/ResponseTemplates.jsx:18-19 | a term that contains a shorter term, compared in lowercase, lists a subset of the shorter term's list |
| ResponseTemplates.AllTypesWidest | src/pages/ResponseTemplates.jsx:20 | the `all` type lists a superset of any single type |
| ResponseTemplates.SearchIgnoresCase | src/pages/ResponseTemplates.jsx:18-19 | search terms equal in lowercase list the same templates in the same order |
| ResponseTemplates.TypeMatchIsExact | src/pages/ResponseTemplates.jsx:20 | under a type other than `all`, every listed template has exactly that type, so a type differing only in case hides it |
| ResponseTemplates.TypeMatchIsCaseSensitive | src/pages/ResponseTemplates.jsx:18-20 | a witness: `INTRO` finds the template named `Intro`, while the type `Response` hides a `response` template |
| ResponseTemplates.Preview | src/pages/ResponseTemplates.jsx:115 | the preview is the content plus `...` when it has at most 150 characters; otherwise it is the content's first 150 characters plus `...` |

## Left out

- The prompt builders and system prompts inside `src/services/openai.js` (lines 128-193). The model uses
  them only through the call's outcome, so `GenerateOutreachMessage` takes neither `messageType` nor the
  prompt. They differ from the `src/utils/prompts.js` builders, which are modelled.
- `validateOpenAIConfig`, the OpenAI HTTP call, and logging to the console.
- The network part of `createCheckoutSession` and the rest of `stripeService`.
- The memoised `getStripe` promise.
- `pricingHelpers.formatPrice`, which depends on `Intl.NumberFormat`, and `getPlanComparison`, which only
  decorates the plan table with it.
- `localStorage`, `Date` and `Math.random().toString(36)` in `DataContext.jsx`. Their results are
  parameters: the stored company, `now` and `randomSuffix`.
- React state, rendering, the clipboard, and the other pages. `src/services/supabase.js` is not part of
  this model.
- `undefined` and `null` inside a template literal. A missing interpolated field renders as the text
  `undefined` in the source and as the empty string here. The one exception is the follow-up type's
  instruction, which is modelled as `undefined`.
- The `TypeError` thrown by `investment_thesis.split` when the thesis is absent.
- Inherited `Object.prototype` keys such as `constructor`. In the source these are found by
  `SUBSCRIPTION_PLANS[id]`, `SUBJECT_LINE_TEMPLATES[type]` and `typeInstructions[type]`. The model
  treats them as unknown keys.
- Unicode case folding. `toLowerCase` is modelled on ASCII letters only.
- Unicode code units. `substring(0, 150)` is modelled on characters, not UTF-16 units.
- Prompts.ValidatePromptInputs: the six pushes are calls of `CheckField`, one per `if`, rather than six
  inline statements. A ghost list of the fields checked so far carries the proof.
- Stripe.GetUsagePercentage: uses real arithmetic instead of IEEE doubles, and requires a non-zero
  ceiling. In JavaScript a zero ceiling gives `Infinity` or `NaN`.
- Stripe.UsagePercentageBounds: the bounds are stated for a positive ceiling only.
- Config.AiGenerationEnabled: states that a set variable is needed, not the exact text `true`. The body
  compares with `true`.
