/**
 * The prompt helpers (src/utils/prompts.js): the three prompt builders, each a template literal
 * with optional sections, the subject-line templates with their token substitution, and the
 * validator that collects every missing input field.
 */
module Prompts {
  import opened Wrappers
  import opened Text
  import opened Sequences
  import opened DataContext

  /** The line every prompt ends with. */
  const FinalInstruction: string := "Write only the email body, " + "no subject line."

  /**
   * An optional section: the section when the value is truthy (non-empty), else nothing. Where the
   * section lands in a prompt is stated by `OutreachNotesSection` and `FollowUpUpdatesSection`.
   */
  function OptionalSection(heading: string, value: string): (r: string)
    ensures value == "" ==> r == ""
    ensures value != "" ==> r == heading + value
  {
    if value != "" then heading + value else ""
  }

  // ---- createOutreachPrompt ----

  /** `company.funding_ask || 'Not specified'`: an absent or empty ask reads as not specified. */
  function FundingAskText(company: Company): (r: string)
    ensures r != ""
  {
    if company.fundingAsk.Some? && company.fundingAsk.value != "" then company.fundingAsk.value else NotSpecified
  }

  // Labels of the outreach template.
  const FirmLabel: string := "\n- Firm: "
  const ThesisLabel: string := "\n- Investment Thesis: "
  const StageFocusLabel: string := "\n- Stage Focus: "
  const CheckSizeLabel: string := "\n- Check Size: "
  const CompanyHeading: string := "\n\nCOMPANY INFORMATION:\n- Name: "
  const IndustryLabel: string := "\n- Industry: "
  const StageLabel: string := "\n- Stage: "
  const DescriptionLabel: string := "\n- Description: "
  const FundingLabel: string := "\n- Funding Ask: "
  const NotesHeading: string := "ADDITIONAL CONTEXT:\n"
  const NotSpecified: string := "Not specified"

  const OutreachOpening: string :=
    "Write a personalized investor outreach " + "email with the following details:\n\n" +
    "INVESTOR INFORMATION:\n- Name: "

  const OutreachStructure: string :=
    "\n\nEMAIL STRUCTURE:\n1. Personalized greeting\n" +
    "2. Brief introduction of yourself " + "and company\n" +
    "3. Explain why this investor is a good " + "fit (reference their thesis/portfolio)\n" +
    "4. Highlight key traction/achievements\n" +
    "5. Clear ask for a meeting\n" + "6. Professional closing\n\n"

  /** The `INVESTOR INFORMATION` block of the outreach template, from the opening request on. */
  function InvestorBlock(investor: Investor): (parts: seq<string>)
    ensures |parts| == 10 && parts[0] == OutreachOpening && parts[1] == investor.name
    ensures parts[2] == FirmLabel && parts[3] == investor.firm
  {
    [OutreachOpening, investor.name,
     FirmLabel, investor.firm,
     ThesisLabel, investor.investmentThesis,
     StageFocusLabel, investor.stageFocus,
     CheckSizeLabel, investor.checkSize]
  }

  /** The `COMPANY INFORMATION` block of the outreach template, up to the funding ask. */
  function CompanyBlock(company: Company): (parts: seq<string>)
    ensures |parts| == 8 && parts[0] == CompanyHeading && parts[1] == company.name
  {
    [CompanyHeading, company.name,
     IndustryLabel, company.industry,
     StageLabel, company.stage,
     DescriptionLabel, company.description]
  }

  /** Position of the funding ask and of the additional-context section among the pieces. */
  const FundingPiece: nat := 3
  const NotesPiece: nat := 5

  /** The pieces of the outreach template literal, literal text and interpolated values in turn. */
  function OutreachParts(investor: Investor, company: Company, customNotes: string): (parts: seq<string>)
    ensures |parts| == 8
    ensures parts[0] == Concat(InvestorBlock(investor)) && parts[1] == Concat(CompanyBlock(company))
    ensures parts[2] == FundingLabel && parts[FundingPiece] == FundingAskText(company)
    ensures parts[NotesPiece] == OptionalSection(NotesHeading, customNotes)
    ensures parts[7] == FinalInstruction
  {
    [Concat(InvestorBlock(investor)), Concat(CompanyBlock(company)),
     FundingLabel, FundingAskText(company),
     "\n\n", OptionalSection(NotesHeading, customNotes),
     OutreachStructure, FinalInstruction]
  }

  /**
   * `createOutreachPrompt`: the filled template, trimmed. The template starts and ends with
   * visible text, so the trim removes nothing. `messageType` is accepted but never read.
   */
  function CreateOutreachPrompt(investor: Investor, company: Company, customNotes: string): (r: string)
    ensures r == Concat(OutreachParts(investor, company, customNotes))
  {
    var parts := OutreachParts(investor, company, customNotes);
    TrimOfTemplate(parts);
    Trim(Concat(parts))
  }

  /** The prompt opens with its fixed request and always ends with the closing instruction. */
  lemma OutreachPromptFrame(investor: Investor, company: Company, customNotes: string)
    ensures StartsWith(CreateOutreachPrompt(investor, company, customNotes), OutreachOpening)
    ensures EndsWith(CreateOutreachPrompt(investor, company, customNotes), FinalInstruction)
  {
    var parts := OutreachParts(investor, company, customNotes);
    ConcatEnds(parts);
    ConcatEnds(InvestorBlock(investor));
    StartsWithTransitive(Concat(parts), parts[0], OutreachOpening);
  }

  /** The funding line reads `Not specified` exactly when the ask is absent or empty, and the ask otherwise. */
  lemma OutreachFundingAsk(investor: Investor, company: Company, customNotes: string)
    ensures company.fundingAsk.None? || company.fundingAsk.value == "" ==>
      Contains(CreateOutreachPrompt(investor, company, customNotes), FundingLabel + NotSpecified)
    ensures company.fundingAsk.Some? && company.fundingAsk.value != "" ==>
      Contains(CreateOutreachPrompt(investor, company, customNotes), FundingLabel + company.fundingAsk.value)
  {
    ConcatContainsNeighbours(OutreachParts(investor, company, customNotes), FundingPiece - 1);
  }

  /** The prompt names the investor, the firm and the company. */
  lemma OutreachMentions(investor: Investor, company: Company, customNotes: string)
    ensures Contains(CreateOutreachPrompt(investor, company, customNotes), FirmLabel + investor.firm)
    ensures Contains(CreateOutreachPrompt(investor, company, customNotes), CompanyHeading + company.name)
    ensures Contains(CreateOutreachPrompt(investor, company, customNotes), OutreachOpening + investor.name)
  {
    var parts := OutreachParts(investor, company, customNotes);
    ConcatContainsNeighbours(InvestorBlock(investor), 0);
    ConcatContainsWithinPiece(parts, 0, OutreachOpening + investor.name);
    ConcatContainsNeighbours(InvestorBlock(investor), 2);
    ConcatContainsWithinPiece(parts, 0, FirmLabel + investor.firm);
    ConcatContainsNeighbours(CompanyBlock(company), 0);
    ConcatContainsWithinPiece(parts, 1, CompanyHeading + company.name);
  }

  /**
   * Notes add the `ADDITIONAL CONTEXT:` section, and nothing else, at one place of the prompt
   * written without notes; empty notes add nothing.
   */
  lemma OutreachNotesSection(investor: Investor, company: Company, customNotes: string)
    ensures customNotes == "" ==> CreateOutreachPrompt(investor, company, customNotes) == CreateOutreachPrompt(investor, company, "")
    ensures customNotes != "" ==> exists cut :: InsertedAt(CreateOutreachPrompt(investor, company, customNotes),
      CreateOutreachPrompt(investor, company, ""), cut, NotesHeading + customNotes)
  {
    var plain := OutreachParts(investor, company, "");
    assert OutreachParts(investor, company, customNotes) == plain[NotesPiece := OptionalSection(NotesHeading, customNotes)];
    var cut := ConcatInsert(plain, NotesPiece, OptionalSection(NotesHeading, customNotes));
    if customNotes != "" {
      assert InsertedAt(CreateOutreachPrompt(investor, company, customNotes), CreateOutreachPrompt(investor, company, ""), cut, NotesHeading + customNotes);
    }
  }

  // ---- createFollowUpPrompt ----

  const FollowUpOpening: string :=
    "Write a professional follow-up email " + "to an investor with the following " + "context:\n\nINVESTOR: "
  const AtLabel: string := " at "
  const CompanyLine: string := "\nCOMPANY: "
  const TypeLabel: string := "\nFOLLOW-UP TYPE: "
  const PreviousHeading: string := "\n\nPREVIOUS MESSAGE CONTEXT:\n"
  const UpdatesHeading: string := "NEW UPDATES TO SHARE:\n"
  const FollowUpRequirements: string := "\n\nREQUIREMENTS:\n" + "- Keep it brief (under 150 words)\n- "
  const FollowUpRequirementsRest: string :=
    "\n- Reference the previous " + "conversation naturally\n" + "- Include appropriate call-to-action\n" +
    "- Maintain professional tone\n\n"

  /** The follow-up types `typeInstructions` knows. */
  const FollowUpTypes: seq<string> := ["gentle", "urgent", "update", "meeting"]

  /** `typeInstructions[followUpType]`, which a template literal renders as `undefined` for any other type. */
  function TypeInstruction(followUpType: string): (r: string)
    ensures followUpType !in FollowUpTypes <==> r == "undefined"
  {
    match followUpType
    case "gentle" => "Write a gentle follow-up that provides " + "value and maintains interest"
    case "urgent" => "Write a more direct follow-up with " + "time-sensitive information"
    case "update" => "Write a follow-up focused on sharing " + "important company updates"
    case "meeting" => "Write a follow-up to schedule or " + "reschedule a meeting"
    case _ => "undefined"
  }

  /** The second requirement: an `update` follow-up focuses on the updates, every other type on value. */
  function RequirementLine(followUpType: string): (r: string)
    ensures r == "Focus on sharing meaningful updates" <==> followUpType == "update"
  {
    if followUpType == "update" then "Focus on sharing " + "meaningful updates" else "Provide value without " + "being pushy"
  }

  /** The `FOLLOW-UP TYPE` line: the type and its instruction. */
  function TypeLine(followUpType: string): string {
    TypeLabel + followUpType + " - " + TypeInstruction(followUpType)
  }

  /** The investor, company and type lines of the follow-up template, from the opening request on. */
  function FollowUpHeader(investor: Investor, company: Company, followUpType: string): (parts: seq<string>)
    ensures |parts| == 7 && parts[0] == FollowUpOpening && parts[6] == TypeLine(followUpType)
  {
    [FollowUpOpening, investor.name, AtLabel, investor.firm, CompanyLine, company.name, TypeLine(followUpType)]
  }

  /** The pieces of the follow-up template literal; `followUpType` defaults to `gentle` only when absent. */
  function FollowUpParts(investor: Investor, company: Company, previousMessage: string, followUpType: Option<string>,
                         newUpdates: string): (parts: seq<string>)
    ensures |parts| == 9 && parts[8] == FinalInstruction
    ensures parts[0] == Concat(FollowUpHeader(investor, company, followUpType.GetOr("gentle")))
    ensures parts[4] == OptionalSection(UpdatesHeading, newUpdates)
    ensures parts[6] == RequirementLine(followUpType.GetOr("gentle"))
  {
    var kind := followUpType.GetOr("gentle");
    [Concat(FollowUpHeader(investor, company, kind)), PreviousHeading, previousMessage, "\n\n",
     OptionalSection(UpdatesHeading, newUpdates), FollowUpRequirements, RequirementLine(kind),
     FollowUpRequirementsRest, FinalInstruction]
  }

  /** `createFollowUpPrompt`: the filled template, trimmed; the trim removes nothing. */
  function CreateFollowUpPrompt(investor: Investor, company: Company, previousMessage: string, followUpType: Option<string>,
                                newUpdates: string): (r: string)
    ensures r == Concat(FollowUpParts(investor, company, previousMessage, followUpType, newUpdates))
  {
    var parts := FollowUpParts(investor, company, previousMessage, followUpType, newUpdates);
    ConcatEnds(FollowUpHeader(investor, company, followUpType.GetOr("gentle")));
    TrimOfTemplate(parts);
    Trim(Concat(parts))
  }

  /**
   * An absent type is the `gentle` type; any type names itself and its instruction, which reads
   * `undefined` exactly for a type outside the four known ones.
   */
  lemma FollowUpTypeLine(investor: Investor, company: Company, previousMessage: string, followUpType: Option<string>,
                         newUpdates: string)
    ensures followUpType.None? ==>
      CreateFollowUpPrompt(investor, company, previousMessage, followUpType, newUpdates) ==
      CreateFollowUpPrompt(investor, company, previousMessage, Some("gentle"), newUpdates)
    ensures followUpType.Some? ==> Contains(CreateFollowUpPrompt(investor, company, previousMessage, followUpType, newUpdates),
      TypeLabel + followUpType.value + " - " + TypeInstruction(followUpType.value))
  {
    var parts := FollowUpParts(investor, company, previousMessage, followUpType, newUpdates);
    var header := FollowUpHeader(investor, company, followUpType.GetOr("gentle"));
    ConcatContainsPiece(header, 6);
    ConcatContainsWithinPiece(parts, 0, header[6]);
  }

  /** The second requirement line is the updates one for an `update` follow-up and the value one otherwise. */
  lemma FollowUpRequirement(investor: Investor, company: Company, previousMessage: string, followUpType: Option<string>,
                            newUpdates: string)
    ensures Contains(CreateFollowUpPrompt(investor, company, previousMessage, followUpType, newUpdates),
      FollowUpRequirements + RequirementLine(followUpType.GetOr("gentle")))
  {
    ConcatContainsNeighbours(FollowUpParts(investor, company, previousMessage, followUpType, newUpdates), 5);
  }

  /** New updates add their section, and nothing else, at one place of the prompt written without them. */
  lemma FollowUpUpdatesSection(investor: Investor, company: Company, previousMessage: string, followUpType: Option<string>,
                               newUpdates: string)
    ensures newUpdates == "" ==>
      CreateFollowUpPrompt(investor, company, previousMessage, followUpType, newUpdates) ==
      CreateFollowUpPrompt(investor, company, previousMessage, followUpType, "")
    ensures newUpdates != "" ==> exists cut :: InsertedAt(CreateFollowUpPrompt(investor, company, previousMessage, followUpType, newUpdates),
      CreateFollowUpPrompt(investor, company, previousMessage, followUpType, ""), cut, UpdatesHeading + newUpdates)
  {
    var plain := FollowUpParts(investor, company, previousMessage, followUpType, "");
    var section := OptionalSection(UpdatesHeading, newUpdates);
    assert FollowUpParts(investor, company, previousMessage, followUpType, newUpdates) == plain[4 := section];
    var cut := ConcatInsert(plain, 4, section);
    if newUpdates != "" {
      assert InsertedAt(CreateFollowUpPrompt(investor, company, previousMessage, followUpType, newUpdates),
        CreateFollowUpPrompt(investor, company, previousMessage, followUpType, ""), cut, UpdatesHeading + newUpdates);
    }
  }

  // ---- createResponsePrompt ----

  const ResponseOpening: string :=
    "Write a professional response email " + "to an investor inquiry with the " + "following details:\n\nINVESTOR: "
  const InquiryLabel: string := "\nINQUIRY TYPE: "
  const QuestionsHeading: string := "SPECIFIC QUESTIONS TO ADDRESS:"
  const AttachmentsHeading: string := "ATTACHMENTS TO MENTION:"
  const ResponseRequirements: string :=
    "\n\nREQUIREMENTS:\n" + "- Address all questions thoroughly " + "but concisely\n" +
    "- Show enthusiasm and professionalism\n" + "- Provide clear next steps\n" +
    "- Mention any attachments naturally\n" + "- Keep under 250 words\n\n"

  /** `items.map(q => `- ${q}`)`: one bullet per item, in order. */
  function Bullets(items: seq<string>): (r: seq<string>)
    ensures |r| == |items| && forall i :: 0 <= i < |items| ==> r[i] == "- " + items[i]
  {
    seq(|items|, i requires 0 <= i < |items| => "- " + items[i])
  }

  /** A list section: the heading and one bullet line per item when the list is non-empty, else nothing. */
  function ListSection(heading: string, items: seq<string>): string {
    if |items| > 0 then heading + "\n" + Join(Bullets(items), "\n") else ""
  }

  /**
   * A non-empty list section, read back line by line, is its heading followed by the items'
   * bullets, in input order, provided no heading or item spans several lines.
   */
  lemma ListSectionLines(heading: string, items: seq<string>)
    requires |items| > 0 && '\n' !in heading
    requires forall i :: 0 <= i < |items| ==> '\n' !in items[i]
    ensures Split(ListSection(heading, items), '\n') == [heading] + Bullets(items)
  {
    var lines := [heading] + Bullets(items);
    assert lines[0] == heading && lines[1..] == Bullets(items);
    assert Join(lines, "\n") == ListSection(heading, items);
    forall k | 0 <= k < |lines| ensures '\n' !in lines[k] {
      if k > 0 {
        assert lines[k] == "- " + items[k - 1];
      }
    }
    SplitJoin(lines, '\n');
  }

  /** The investor, company and inquiry lines of the response template, from the opening request on. */
  function ResponseHeader(investor: Investor, company: Company, inquiryType: string): (parts: seq<string>)
    ensures |parts| == 8 && parts[0] == ResponseOpening
  {
    [ResponseOpening, investor.name, AtLabel, investor.firm, CompanyLine, company.name, InquiryLabel, inquiryType]
  }

  /** The pieces of the response template literal. */
  function ResponseParts(investor: Investor, company: Company, inquiryType: string, specificQuestions: seq<string>,
                         attachments: seq<string>): (parts: seq<string>)
    ensures |parts| == 7 && parts[6] == FinalInstruction
    ensures parts[0] == Concat(ResponseHeader(investor, company, inquiryType))
    ensures parts[2] == ListSection(QuestionsHeading, specificQuestions)
    ensures parts[4] == ListSection(AttachmentsHeading, attachments)
  {
    [Concat(ResponseHeader(investor, company, inquiryType)), "\n\n", ListSection(QuestionsHeading, specificQuestions),
     "\n\n", ListSection(AttachmentsHeading, attachments), ResponseRequirements, FinalInstruction]
  }

  /** `createResponsePrompt`: the filled template, trimmed; the trim removes nothing. */
  function CreateResponsePrompt(investor: Investor, company: Company, inquiryType: string, specificQuestions: seq<string>,
                                attachments: seq<string>): (r: string)
    ensures r == Concat(ResponseParts(investor, company, inquiryType, specificQuestions, attachments))
  {
    var parts := ResponseParts(investor, company, inquiryType, specificQuestions, attachments);
    ConcatEnds(ResponseHeader(investor, company, inquiryType));
    TrimOfTemplate(parts);
    Trim(Concat(parts))
  }

  /** The prompt holds both list sections. */
  lemma ResponseSections(investor: Investor, company: Company, inquiryType: string, specificQuestions: seq<string>,
                         attachments: seq<string>)
    ensures Contains(CreateResponsePrompt(investor, company, inquiryType, specificQuestions, attachments),
      ListSection(QuestionsHeading, specificQuestions))
    ensures Contains(CreateResponsePrompt(investor, company, inquiryType, specificQuestions, attachments),
      ListSection(AttachmentsHeading, attachments))
  {
    var parts := ResponseParts(investor, company, inquiryType, specificQuestions, attachments);
    ConcatContainsPiece(parts, 2);
    ConcatContainsPiece(parts, 4);
  }

  /** Questions add their section, and nothing else, at one place of the prompt written without any. */
  lemma ResponseQuestionsSection(investor: Investor, company: Company, inquiryType: string, specificQuestions: seq<string>,
                                 attachments: seq<string>)
    ensures specificQuestions != [] ==> exists cut ::
      InsertedAt(CreateResponsePrompt(investor, company, inquiryType, specificQuestions, attachments),
        CreateResponsePrompt(investor, company, inquiryType, [], attachments), cut, ListSection(QuestionsHeading, specificQuestions))
  {
    var plain := ResponseParts(investor, company, inquiryType, [], attachments);
    var section := ListSection(QuestionsHeading, specificQuestions);
    assert ResponseParts(investor, company, inquiryType, specificQuestions, attachments) == plain[2 := section];
    var cut := ConcatInsert(plain, 2, section);
    assert InsertedAt(CreateResponsePrompt(investor, company, inquiryType, specificQuestions, attachments),
      CreateResponsePrompt(investor, company, inquiryType, [], attachments), cut, section);
  }

  /** Attachments add their section, and nothing else, at one place of the prompt written without any. */
  lemma ResponseAttachmentsSection(investor: Investor, company: Company, inquiryType: string, specificQuestions: seq<string>,
                                   attachments: seq<string>)
    ensures attachments != [] ==> exists cut ::
      InsertedAt(CreateResponsePrompt(investor, company, inquiryType, specificQuestions, attachments),
        CreateResponsePrompt(investor, company, inquiryType, specificQuestions, []), cut, ListSection(AttachmentsHeading, attachments))
  {
    var plain := ResponseParts(investor, company, inquiryType, specificQuestions, []);
    var section := ListSection(AttachmentsHeading, attachments);
    assert ResponseParts(investor, company, inquiryType, specificQuestions, attachments) == plain[4 := section];
    var cut := ConcatInsert(plain, 4, section);
    assert InsertedAt(CreateResponsePrompt(investor, company, inquiryType, specificQuestions, attachments),
      CreateResponsePrompt(investor, company, inquiryType, specificQuestions, []), cut, section);
  }

  // ---- SUBJECT_LINE_TEMPLATES and generateSubjectLine ----

  const InitialSubjects: seq<string> := [
    "{company} x {firm} - " + "Partnership Opportunity",
    "Quick intro: {company} ({industry})",
    "{company} - {stage} {industry} startup",
    "Partnership opportunity: {company}",
    "{company} - Aligns with " + "your {stage} focus",
    "Introduction: {company} founder",
    "{company} - {industry} solution " + "you might find interesting"]

  const FollowUpSubjects: seq<string> := [
    "Re: {company} partnership opportunity",
    "Following up: {company} updates",
    "{company} - Quick update",
    "Re: Our conversation about {company}",
    "{company} - New developments"]

  const ResponseSubjects: seq<string> := [
    "Re: {company} information request",
    "{company} - Additional details",
    "Re: Due diligence materials",
    "{company} - Requested information"]

  /** The message types with a table of their own. */
  const SubjectKinds: set<string> := {"initial", "followUp", "response"}

  /** `SUBJECT_LINE_TEMPLATES[messageType] || SUBJECT_LINE_TEMPLATES.initial`. */
  function SubjectTemplates(messageType: string): (r: seq<string>)
    ensures |r| > 0
    ensures messageType !in SubjectKinds ==> r == InitialSubjects
    ensures messageType == "followUp" ==> r == FollowUpSubjects
    ensures messageType == "response" ==> r == ResponseSubjects
  {
    match messageType
    case "followUp" => FollowUpSubjects
    case "response" => ResponseSubjects
    case _ => InitialSubjects
  }

  /** `Math.floor(rand * n)` for a `Math.random()` draw `rand`. */
  function PickIndex(rand: real, n: nat): (r: nat)
    requires 0.0 <= rand < 1.0 && n > 0
    ensures r < n
  {
    assert rand * (n as real) < n as real;
    (rand * (n as real)).Floor
  }

  /** Every index can be drawn: the draw `k / n` picks index `k`. */
  lemma PickIndexReaches(n: nat, k: nat)
    requires k < n
    ensures 0.0 <= (k as real) / (n as real) < 1.0
    ensures PickIndex((k as real) / (n as real), n) == k
  {
    assert (k as real) / (n as real) * (n as real) == k as real;
  }

  /**
   * The replace chain: the first `{company}`, then the first `{firm}`, `{industry}` and `{stage}`.
   * A template without any `{` holds no token and is used as it is.
   */
  function FillSubject(template: string, company: Company, investor: Investor): (r: string)
    ensures '{' !in template ==> r == template
  {
    MissingFirstChar(template, "{company}");
    MissingFirstChar(template, "{firm}");
    MissingFirstChar(template, "{industry}");
    MissingFirstChar(template, "{stage}");
    var withCompany := ReplaceFirst(template, "{company}", company.name);
    var withFirm := ReplaceFirst(withCompany, "{firm}", investor.firm);
    var withIndustry := ReplaceFirst(withFirm, "{industry}", company.industry);
    ReplaceFirst(withIndustry, "{stage}", company.stage)
  }

  /** `generateSubjectLine`: a template drawn from the type's table, with its tokens filled in. */
  function GenerateSubjectLine(company: Company, investor: Investor, messageType: string, rand: real): (r: string)
    requires 0.0 <= rand < 1.0
    ensures exists k :: 0 <= k < |SubjectTemplates(messageType)| && r == FillSubject(SubjectTemplates(messageType)[k], company, investor)
  {
    var templates := SubjectTemplates(messageType);
    FillSubject(templates[PickIndex(rand, |templates|)], company, investor)
  }

  /** The first `{company}` of a text without other braces becomes the company name. */
  lemma ReplaceOnlyCompany(prefix: string, suffix: string, replacement: string)
    requires '{' !in prefix
    ensures ReplaceFirst(prefix + "{company}" + suffix, "{company}", replacement) ==
      prefix + Substitution(replacement, "{company}", prefix, suffix) + suffix
  {
    var text := prefix + "{company}" + suffix;
    var i := |prefix|;
    assert text[..i] == prefix && text[i + 9..] == suffix && text[i..i + 9] == "{company}";
    forall j | 0 <= j < i ensures !OccursAt(text, "{company}", j) {
      assert text[j] == prefix[j];
    }
    assert IsFirstOccurrence(text, "{company}", i);
  }

  /**
   * A template whose only token is `{company}` shows the company name in its place, when the name
   * holds neither a brace nor a dollar sign.
   */
  lemma FillCompanyOnly(prefix: string, suffix: string, company: Company, investor: Investor)
    requires '{' !in prefix && '{' !in suffix && '{' !in company.name && '$' !in company.name
    ensures FillSubject(prefix + "{company}" + suffix, company, investor) == prefix + company.name + suffix
  {
    var filled := prefix + company.name + suffix;
    ReplaceOnlyCompany(prefix, suffix, company.name);
    SubstitutionPlain(company.name, "{company}", prefix, suffix);
    assert ReplaceFirst(prefix + "{company}" + suffix, "{company}", company.name) == filled;
    assert '{' !in filled;
    MissingFirstChar(filled, "{firm}");
    MissingFirstChar(filled, "{industry}");
    MissingFirstChar(filled, "{stage}");
  }

  /** A text whose only brace opens `{company}` holds no other token. */
  lemma OnlyCompanyToken(prefix: string, suffix: string, token: string)
    requires '{' !in prefix && '{' !in suffix
    requires |token| >= 2 && token[0] == '{' && token[1] != 'c'
    ensures !Contains(prefix + "{company}" + suffix, token)
  {
    var text := prefix + "{company}" + suffix;
    forall i | 0 <= i <= |text| - |token| ensures !OccursAt(text, token, i) {
      if i < |prefix| {
        assert text[i..i + |token|][0] == text[i] == prefix[i] != token[0];
      } else if i == |prefix| {
        assert text[i..i + |token|][1] == text[i + 1] == 'c' != token[1];
      } else if i < |prefix| + 9 {
        assert text[i..i + |token|][0] == text[i] == "{company}"[i - |prefix|] != token[0];
      } else {
        assert text[i..i + |token|][0] == text[i] == suffix[i - |prefix| - 9] != token[0];
      }
    }
  }

  /**
   * The company name is a replacement string, so its `$` patterns are expanded: a company named
   * `$&` puts the matched `{company}` back, and the subject keeps its token.
   */
  lemma FillDollarAmpersand(prefix: string, suffix: string, company: Company, investor: Investor)
    requires '{' !in prefix && '{' !in suffix && company.name == "$&"
    ensures FillSubject(prefix + "{company}" + suffix, company, investor) == prefix + "{company}" + suffix
  {
    var text := prefix + "{company}" + suffix;
    ReplaceOnlyCompany(prefix, suffix, company.name);
    SubstitutionMatched("{company}", prefix, suffix);
    assert ReplaceFirst(text, "{company}", company.name) == text;
    OnlyCompanyToken(prefix, suffix, "{firm}");
    OnlyCompanyToken(prefix, suffix, "{industry}");
    OnlyCompanyToken(prefix, suffix, "{stage}");
  }

  // ---- validatePromptInputs ----

  /** The fields the validator checks, in the order it checks them. */
  datatype Field = InvestorName | InvestorFirm | InvestorThesis | CompanyName | CompanyDescription | CompanyIndustry

  const CheckedFields: seq<Field> := [InvestorName, InvestorFirm, InvestorThesis, CompanyName, CompanyDescription, CompanyIndustry]

  /** `investor?.name` and the like: nothing when the record itself is absent. */
  function FieldValue(field: Field, investor: Option<Investor>, company: Option<Company>): Option<string> {
    match field
    case InvestorName => if investor.Some? then Some(investor.value.name) else None
    case InvestorFirm => if investor.Some? then Some(investor.value.firm) else None
    case InvestorThesis => if investor.Some? then Some(investor.value.investmentThesis) else None
    case CompanyName => if company.Some? then Some(company.value.name) else None
    case CompanyDescription => if company.Some? then Some(company.value.description) else None
    case CompanyIndustry => if company.Some? then Some(company.value.industry) else None
  }

  /** A field is missing when its value is falsy: absent or empty. */
  predicate Missing(field: Field, investor: Option<Investor>, company: Option<Company>) {
    var value := FieldValue(field, investor, company);
    value.None? || value.value == ""
  }

  function MissingTest(investor: Option<Investor>, company: Option<Company>): Field -> bool {
    field => Missing(field, investor, company)
  }

  function ErrorMessage(field: Field): string {
    match field
    case InvestorName => "Investor name is required"
    case InvestorFirm => "Investor firm is required"
    case InvestorThesis => "Investor thesis is required"
    case CompanyName => "Company name is required"
    case CompanyDescription => "Company description is required"
    case CompanyIndustry => "Company industry is required"
  }

  function Messages(fields: seq<Field>): (r: seq<string>)
    ensures |r| == |fields| && forall i :: 0 <= i < |fields| ==> r[i] == ErrorMessage(fields[i])
  {
    seq(|fields|, i requires 0 <= i < |fields| => ErrorMessage(fields[i]))
  }

  lemma MessagesAppend(a: seq<Field>, b: seq<Field>)
    ensures Messages(a + b) == Messages(a) + Messages(b)
  {
    assert forall i :: 0 <= i < |a| + |b| ==> (a + b)[i] == if i < |a| then a[i] else b[i - |a|];
  }

  lemma AllFieldsChecked(f: Field)
    ensures f in CheckedFields
  {
    match f
    case InvestorName => assert CheckedFields[0] == f;
    case InvestorFirm => assert CheckedFields[1] == f;
    case InvestorThesis => assert CheckedFields[2] == f;
    case CompanyName => assert CheckedFields[3] == f;
    case CompanyDescription => assert CheckedFields[4] == f;
    case CompanyIndustry => assert CheckedFields[5] == f;
  }

  /** The fields the validator reports: the missing ones, in checking order. */
  function ReportedFields(investor: Option<Investor>, company: Option<Company>): (r: seq<Field>)
    ensures forall f :: f in r <==> Missing(f, investor, company)
    ensures IsSubsequence(r, CheckedFields)
  {
    var r := Filter(CheckedFields, MissingTest(investor, company));
    FilterSubsequence(CheckedFields, MissingTest(investor, company));
    forall f: Field ensures f in CheckedFields {
      AllFieldsChecked(f);
    }
    r
  }

  /** The errors the validator should report: one message per missing field, in checking order. */
  function ExpectedErrors(investor: Option<Investor>, company: Option<Company>): seq<string> {
    Messages(ReportedFields(investor, company))
  }

  /** The errors pushed while checking `fields` in order: one message per field that fails `test`. */
  function PushedErrors(fields: seq<Field>, test: Field -> bool): seq<string>
    decreases |fields|
  {
    if |fields| == 0 then []
    else
      var last := fields[|fields| - 1];
      PushedErrors(fields[..|fields| - 1], test) + (if test(last) then [ErrorMessage(last)] else [])
  }

  /** Pushing messages field by field gives the messages of the fields that fail the test. */
  lemma {:induction false} PushedErrorsAreFiltered(fields: seq<Field>, test: Field -> bool)
    ensures PushedErrors(fields, test) == Messages(Filter(fields, test))
    decreases |fields|
  {
    if |fields| > 0 {
      var init, last := fields[..|fields| - 1], fields[|fields| - 1];
      assert fields == init + [last];
      PushedErrorsAreFiltered(init, test);
      FilterSnoc(init, last, test);
      MessagesAppend(Filter(init, test), if test(last) then [last] else []);
    }
  }

  /** Having checked the six fields in checking order, the errors are the expected ones. */
  lemma CheckedInOrder(checked: seq<Field>)
    requires checked == [] + [InvestorName] + [InvestorFirm] + [InvestorThesis] + [CompanyName] + [CompanyDescription] + [CompanyIndustry]
    ensures checked == CheckedFields
  {
  }

  lemma AllFieldsChecked6(errors: seq<string>, investor: Option<Investor>, company: Option<Company>)
    requires errors == PushedErrors(CheckedFields, MissingTest(investor, company))
    ensures errors == ExpectedErrors(investor, company)
    ensures |errors| == 0 <==> errors == []
  {
    PushedErrorsAreFiltered(CheckedFields, MissingTest(investor, company));
  }

  /**
   * One check of `validatePromptInputs`: pushes the field's message when the field is missing,
   * so the errors stay the messages of the missing fields checked so far.
   */
  method CheckField(errors: seq<string>, ghost checked: seq<Field>, field: Field, investor: Option<Investor>, company: Option<Company>)
    returns (pushed: seq<string>)
    requires errors == PushedErrors(checked, MissingTest(investor, company))
    ensures pushed == errors + (if Missing(field, investor, company) then [ErrorMessage(field)] else [])
    ensures pushed == PushedErrors(checked + [field], MissingTest(investor, company))
  {
    pushed := errors;
    if Missing(field, investor, company) {
      pushed := pushed + [ErrorMessage(field)];
    }
    assert (checked + [field])[..|checked|] == checked;
  }

  /**
   * `validatePromptInputs`: checks the six fields in turn and pushes a message for each missing
   * one; the input is valid exactly when no message was pushed.
   */
  method ValidatePromptInputs(investor: Option<Investor>, company: Option<Company>) returns (isValid: bool, errors: seq<string>)
    ensures errors == ExpectedErrors(investor, company)
    ensures isValid <==> errors == []
  {
    errors := [];
    ghost var checked: seq<Field> := [];
    errors := CheckField(errors, checked, InvestorName, investor, company);
    checked := checked + [InvestorName];
    errors := CheckField(errors, checked, InvestorFirm, investor, company);
    checked := checked + [InvestorFirm];
    errors := CheckField(errors, checked, InvestorThesis, investor, company);
    checked := checked + [InvestorThesis];
    errors := CheckField(errors, checked, CompanyName, investor, company);
    checked := checked + [CompanyName];
    errors := CheckField(errors, checked, CompanyDescription, investor, company);
    checked := checked + [CompanyDescription];
    errors := CheckField(errors, checked, CompanyIndustry, investor, company);
    checked := checked + [CompanyIndustry];
    CheckedInOrder(checked);
    AllFieldsChecked6(errors, investor, company);
    isValid := |errors| == 0;
  }

  /**
   * Every missing field has its message among the errors and every error is the message of a
   * missing field; so the input is valid exactly when no field is missing.
   */
  lemma ErrorsReportMissingFields(investor: Option<Investor>, company: Option<Company>)
    ensures forall f :: Missing(f, investor, company) ==> ErrorMessage(f) in ExpectedErrors(investor, company)
    ensures forall e :: e in ExpectedErrors(investor, company) ==> exists f :: Missing(f, investor, company) && e == ErrorMessage(f)
    ensures ExpectedErrors(investor, company) == [] <==> forall f :: !Missing(f, investor, company)
  {
    var reported := ReportedFields(investor, company);
    var errors := ExpectedErrors(investor, company);
    forall f | Missing(f, investor, company) ensures ErrorMessage(f) in errors {
      var i :| 0 <= i < |reported| && reported[i] == f;
      assert errors[i] == ErrorMessage(f);
    }
    forall e | e in errors ensures exists f :: Missing(f, investor, company) && e == ErrorMessage(f) {
      var i :| 0 <= i < |errors| && errors[i] == e;
      assert reported[i] in reported;
    }
    if reported != [] {
      assert reported[0] in reported;
    }
  }

  /** The messages come in checking order: investor name, firm, thesis, then company name, description, industry. */
  lemma ErrorsInCheckingOrder(investor: Option<Investor>, company: Option<Company>)
    ensures IsSubsequence(ExpectedErrors(investor, company), Messages(CheckedFields))
  {
    MessagesKeepSubsequence(ReportedFields(investor, company), CheckedFields);
  }

  lemma {:induction false} MessagesKeepSubsequence(r: seq<Field>, s: seq<Field>)
    requires IsSubsequence(r, s)
    ensures IsSubsequence(Messages(r), Messages(s))
    decreases |s|
  {
    if r != [] {
      assert Messages(s)[1..] == Messages(s[1..]);
      if r[0] == s[0] && IsSubsequence(r[1..], s[1..]) {
        MessagesKeepSubsequence(r[1..], s[1..]);
        assert Messages(r)[1..] == Messages(r[1..]);
      } else {
        MessagesKeepSubsequence(r, s[1..]);
      }
    }
  }

  /** When only the description is missing, the one message is the description's. */
  lemma OnlyDescriptionMissing(investor: Investor, company: Company)
    requires investor.name != "" && investor.firm != "" && investor.investmentThesis != ""
    requires company.name != "" && company.industry != "" && company.description == ""
    ensures ExpectedErrors(Some(investor), Some(company)) == ["Company description is required"]
  {
    var test := MissingTest(Some(investor), Some(company));
    assert CheckedFields[4] == CompanyDescription;
    forall f | f != CompanyDescription ensures !test(f) {
    }
    FilterSingle(CheckedFields, test, CompanyDescription);
  }

  /**
   * The validator reads only the six checked fields: inputs that agree on them get the same
   * errors, whatever their stage, check size or funding ask.
   */
  lemma OtherFieldsIgnored(investor: Option<Investor>, company: Option<Company>, investor': Option<Investor>, company': Option<Company>)
    requires forall f: Field :: FieldValue(f, investor, company) == FieldValue(f, investor', company')
    ensures ExpectedErrors(investor, company) == ExpectedErrors(investor', company')
  {
    assert forall f :: MissingTest(investor, company)(f) == MissingTest(investor', company')(f);
    FilterCongruent(CheckedFields, MissingTest(investor, company), MissingTest(investor', company'));
  }
}
