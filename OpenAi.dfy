/**
 * The AI service (src/services/openai.js): the outcome of one chat-completion call decides between
 * the generated text, the template fallback and a rethrown error. The call itself is a parameter:
 * `Completion` is what it returned or threw.
 */
module OpenAi {
  import opened Wrappers
  import opened Text
  import opened DataContext
  import Prompts

  /** Token accounting reported with a completion; carried through untouched. */
  datatype Usage = Usage(promptTokens: nat, completionTokens: nat, totalTokens: nat)

  /** An error as thrown: its `code` (absent for the service's own errors) and its `message`. */
  datatype Thrown = Thrown(code: Option<string>, message: string)

  /** What the completion call gave: the first choice's content and the usage, or the error it threw. */
  datatype Completion =
    | Completed(content: Option<string>, usage: Option<Usage>)
    | Failed(error: Thrown)

  /** A generated message with its subject; `usage` is null for the template fallback. */
  datatype Generated = Generated(message: string, subject: string, usage: Option<Usage>)

  const DisabledError: string := "AI generation is disabled"
  const NoOutreachError: string := "No message generated"
  const OutreachFailure: string := "Failed to generate outreach message"
  const NoFollowUpError: string := "No follow-up message generated"
  const FollowUpFailure: string := "Failed to generate follow-up message"
  const FollowUpPrefix: string := "Re: "

  /** The error codes after which the outreach service falls back to its template. */
  const InsufficientQuota: string := "insufficient_quota"
  const RateLimitExceeded: string := "rate_limit_exceeded"
  const QuotaCodes: set<string> := {InsufficientQuota, RateLimitExceeded}

  /** `completion.choices[0]?.message?.content` is truthy: present and non-empty. */
  predicate HasText(content: Option<string>) {
    content.Some? && content.value != ""
  }

  /**
   * `error.message || fallback`: an empty message gives way to the fixed one. What this buys the
   * callers, that every rethrown error has a non-empty message, is stated by `OutreachOutcome`.
   */
  function ErrorText(message: string, fallback: string): (r: string)
    ensures message != "" ==> r == message
    ensures message == "" ==> r == fallback
  {
    if message != "" then message else fallback
  }

  // ---- generateSubjectLine (the five-template variant) ----

  // Literal text of the five subject lines.
  const CrossLabel: string := " x "
  const PartnershipTail: string := " - Partnership Opportunity"
  const QuickIntro: string := "Quick intro: "
  const OpenParen: string := " ("
  const CloseParen: string := ")"
  const Dash: string := " - "
  const Space: string := " "
  const StartupTail: string := " startup"
  const PartnershipLead: string := "Partnership opportunity: "
  const AlignsLabel: string := " - Aligns with your "
  const FocusTail: string := " focus"

  /** The pieces of the five subject-line template literals. */
  function SubjectPieces(company: Company, investor: Investor): (r: seq<seq<string>>)
    ensures |r| == 5 && |r[0]| == 4 && |r[1]| == 5 && |r[2]| == 6 && |r[3]| == 2 && |r[4]| == 4
    ensures r[0][0] == company.name && r[1][1] == company.name && r[2][0] == company.name
    ensures r[3][1] == company.name && r[4][0] == company.name
  {
    [[company.name, CrossLabel, investor.firm, PartnershipTail],
     [QuickIntro, company.name, OpenParen, company.industry, CloseParen],
     [company.name, Dash, company.stage, Space, company.industry, StartupTail],
     [PartnershipLead, company.name],
     [company.name, AlignsLabel, investor.stageFocus, FocusTail]]
  }

  /** The five subject lines; the fifth reads the investor's stage focus, the third the company's stage. */
  function SubjectLines(company: Company, investor: Investor): (r: seq<string>)
    ensures |r| == 5
  {
    var pieces := SubjectPieces(company, investor);
    [Concat(pieces[0]), Concat(pieces[1]), Concat(pieces[2]), Concat(pieces[3]), Concat(pieces[4])]
  }

  /** `generateSubjectLine(company, investor)`: one of the five lines, drawn by `rand`. */
  function GenerateSubjectLine(company: Company, investor: Investor, rand: real): (r: string)
    requires 0.0 <= rand < 1.0
    ensures r in SubjectLines(company, investor)
  {
    var lines := SubjectLines(company, investor);
    lines[Prompts.PickIndex(rand, |lines|)]
  }

  /** Each of the five lines can be drawn. */
  lemma EverySubjectLineDrawn(company: Company, investor: Investor, k: nat)
    requires k < 5
    ensures 0.0 <= (k as real) / 5.0 < 1.0
    ensures GenerateSubjectLine(company, investor, (k as real) / 5.0) == SubjectLines(company, investor)[k]
  {
    Prompts.PickIndexReaches(5, k);
  }

  /** Every subject line names the company. */
  lemma SubjectNamesCompany(company: Company, investor: Investor, rand: real)
    requires 0.0 <= rand < 1.0
    ensures Contains(GenerateSubjectLine(company, investor, rand), company.name)
  {
    var pieces := SubjectPieces(company, investor);
    var k := Prompts.PickIndex(rand, 5);
    var at := if k == 1 || k == 3 then 1 else 0;
    assert pieces[k][at] == company.name;
    ConcatContainsPiece(pieces[k], at);
  }

  /**
   * The lines read the investor's firm and stage focus and nothing else of the investor: the
   * company's own stage appears only in the third line.
   */
  lemma SubjectLinesReadFirmAndFocus(company: Company, investor: Investor, other: Investor)
    requires other.firm == investor.firm && other.stageFocus == investor.stageFocus
    ensures SubjectLines(company, other) == SubjectLines(company, investor)
  {
  }

  // ---- generateFallbackMessage ----

  const FounderIntro: string :=
    ",\n\nI hope this email finds you well. " + "My name is [Your Name], and I'm the " + "founder of "
  const FollowingIntro: string := ".\n\nI've been following "
  const WorkIn: string := "'s work in "
  const FocusLabel: string := ", particularly your focus on "
  const AlignSentence: string :=
    ". Your recent investments align " + "perfectly with what we're building.\n\n"
  const OperatingLine: string :=
    "\n\nWhat makes us particularly " + "interesting:\n\U{2022} We're operating in the "
  const SpaceAt: string := " space at the "
  const StageBullets: string :=
    " stage\n\U{2022} Our approach to solving this " + "problem is unique because [specific " +
    "differentiator]\n\U{2022} We've achieved [key " + "metric/milestone] in just [timeframe]\n\n"
  const ContextLabel: string := "\nAdditional context: "
  const GivenLabel: string := "\n\nGiven "
  const TrackRecord: string := "'s track record with "
  const ClosingBody: string :=
    " companies and focus on companies like " + "ours, I believe there could be a strong " +
    "strategic fit.\n\nI'd love to share more " + "about our vision and discuss how we " +
    "align with your investment thesis. Would " + "you be available for a brief 15-minute " +
    "call next week?\n\nBest regards,\n" + "[Your Name]\nFounder, "
  const PostScript: string :=
    "\n[your-email@company.com]\n\nP.S. " + "I've attached our latest pitch deck and " +
    "would be happy to provide additional " + "materials upon request."

  /** `investment_thesis.split(',')[0]`: the thesis up to its first comma. */
  function ThesisHead(investor: Investor): (r: string)
    ensures StartsWith(investor.investmentThesis, r) && ',' !in r
    ensures ',' !in investor.investmentThesis ==> r == investor.investmentThesis
  {
    var head := Before(investor.investmentThesis, ',');
    assert |head| < |investor.investmentThesis| ==> investor.investmentThesis[|head|] in investor.investmentThesis;
    head
  }

  /** The greeting and the introduction, up to the pitch. */
  function IntroBlock(investor: Investor, company: Company): (parts: seq<string>)
    ensures |parts| == 11 && parts[0] == "Hi " && parts[1] == investor.name
    ensures parts[4] == FollowingIntro && parts[5] == investor.firm
    ensures parts[8] == FocusLabel && parts[9] == ThesisHead(investor) && parts[10] == AlignSentence
  {
    ["Hi ", investor.name, FounderIntro, company.name,
     FollowingIntro, investor.firm, WorkIn, company.industry,
     FocusLabel, ThesisHead(investor), AlignSentence]
  }

  /** The pitch: the description and the three bullets. */
  function PitchBlock(company: Company): (parts: seq<string>)
    ensures |parts| == 8 && parts[0] == company.name
  {
    [company.name, " is ", company.description,
     OperatingLine, company.industry, SpaceAt, company.stage, StageBullets]
  }

  /** The closing paragraph, the signature and the postscript. */
  function ClosingBlock(investor: Investor, company: Company): (parts: seq<string>)
    ensures |parts| == 7 && parts[6] == PostScript
  {
    [GivenLabel, investor.firm, TrackRecord, investor.stageFocus, ClosingBody, company.name, PostScript]
  }

  /** Position of the additional-context line among the pieces. */
  const ContextPiece: nat := 2

  /** The pieces of the fallback template: introduction, pitch, the optional context line, closing. */
  function FallbackParts(investor: Investor, company: Company, customNotes: string): (parts: seq<string>)
    ensures |parts| == 4
    ensures parts[0] == Concat(IntroBlock(investor, company)) && parts[1] == Concat(PitchBlock(company))
    ensures parts[ContextPiece] == Prompts.OptionalSection(ContextLabel, customNotes)
    ensures parts[3] == Concat(ClosingBlock(investor, company))
  {
    [Concat(IntroBlock(investor, company)), Concat(PitchBlock(company)),
     Prompts.OptionalSection(ContextLabel, customNotes), Concat(ClosingBlock(investor, company))]
  }

  /** The message of `generateFallbackMessage` (the template is not trimmed). */
  function FallbackMessage(investor: Investor, company: Company, customNotes: string): (r: string)
    ensures StartsWith(r, "Hi " + investor.name) && EndsWith(r, PostScript)
  {
    var parts := FallbackParts(investor, company, customNotes);
    var intro := IntroBlock(investor, company);
    ConcatEnds(parts);
    ConcatEnds(ClosingBlock(investor, company));
    ConcatContainsNeighbours(intro, 0);
    ConcatSplit(intro, 1);
    assert intro[..1] == ["Hi "] && Concat(intro[..1]) == "Hi ";
    assert StartsWith(Concat(intro), "Hi " + investor.name);
    StartsWithTransitive(Concat(parts), parts[0], "Hi " + investor.name);
    EndsWithTransitive(Concat(parts), parts[3], PostScript);
    Concat(parts)
  }

  /** `generateFallbackMessage`: the template message, a drawn subject line and no usage. */
  function Fallback(investor: Investor, company: Company, customNotes: string, rand: real): (r: Generated)
    requires 0.0 <= rand < 1.0
    ensures r.message == FallbackMessage(investor, company, customNotes)
    ensures r.subject in SubjectLines(company, investor) && r.usage.None?
  {
    Generated(FallbackMessage(investor, company, customNotes), GenerateSubjectLine(company, investor, rand), None)
  }

  /** The fallback message names the investor, the firm and the company. */
  lemma FallbackMentions(investor: Investor, company: Company, customNotes: string)
    ensures Contains(FallbackMessage(investor, company, customNotes), investor.name)
    ensures Contains(FallbackMessage(investor, company, customNotes), investor.firm)
    ensures Contains(FallbackMessage(investor, company, customNotes), company.name)
  {
    var parts := FallbackParts(investor, company, customNotes);
    var intro := IntroBlock(investor, company);
    ConcatContainsPiece(intro, 1);
    ConcatContainsWithinPiece(parts, 0, investor.name);
    ConcatContainsPiece(intro, 5);
    ConcatContainsWithinPiece(parts, 0, investor.firm);
    ConcatContainsPiece(PitchBlock(company), 0);
    ConcatContainsWithinPiece(parts, 1, company.name);
  }

  /**
   * The focus sentence quotes the thesis up to its first comma, followed directly by the end of the
   * sentence; a thesis without a comma is quoted whole.
   */
  lemma FallbackQuotesThesisHead(investor: Investor, company: Company, customNotes: string)
    ensures Contains(FallbackMessage(investor, company, customNotes), Concat([FocusLabel, ThesisHead(investor), AlignSentence]))
    ensures ',' !in investor.investmentThesis ==>
      Contains(FallbackMessage(investor, company, customNotes), Concat([FocusLabel, investor.investmentThesis, AlignSentence]))
  {
    var intro := IntroBlock(investor, company);
    ConcatContainsRun(intro, 8, 3);
    assert intro[8..11] == [FocusLabel, ThesisHead(investor), AlignSentence];
    ConcatContainsWithinPiece(FallbackParts(investor, company, customNotes), 0, Concat(intro[8..11]));
  }

  /**
   * Notes add the `Additional context:` line, and nothing else, at one place of the message
   * written without notes; empty notes add nothing.
   */
  lemma FallbackNotesLine(investor: Investor, company: Company, customNotes: string)
    ensures customNotes == "" ==> FallbackMessage(investor, company, customNotes) == FallbackMessage(investor, company, "")
    ensures customNotes != "" ==> exists cut :: InsertedAt(FallbackMessage(investor, company, customNotes),
      FallbackMessage(investor, company, ""), cut, ContextLabel + customNotes)
  {
    var plain := FallbackParts(investor, company, "");
    assert FallbackParts(investor, company, customNotes) == plain[ContextPiece := Prompts.OptionalSection(ContextLabel, customNotes)];
    var cut := ConcatInsert(plain, ContextPiece, Prompts.OptionalSection(ContextLabel, customNotes));
    if customNotes != "" {
      assert InsertedAt(FallbackMessage(investor, company, customNotes), FallbackMessage(investor, company, ""), cut, ContextLabel + customNotes);
    }
  }

  // ---- generateOutreachMessage ----

  /** The `try` block: the flag check, the call's outcome, and the result built from its text. */
  function TryOutreach(aiEnabled: bool, investor: Investor, company: Company, completion: Completion, rand: real): (r: Result<Generated, Thrown>)
    requires 0.0 <= rand < 1.0
    ensures !aiEnabled ==> r == Err(Thrown(None, DisabledError))
    ensures aiEnabled && completion.Failed? ==> r == Err(completion.error)
    ensures aiEnabled && completion.Completed? && !HasText(completion.content) ==> r == Err(Thrown(None, NoOutreachError))
    ensures r.Ok? <==> aiEnabled && completion.Completed? && HasText(completion.content)
  {
    if !aiEnabled then Err(Thrown(None, DisabledError))
    else
      match completion
      case Failed(error) => Err(error)
      case Completed(content, usage) =>
        if !HasText(content) then Err(Thrown(None, NoOutreachError))
        else Ok(Generated(Trim(content.value), GenerateSubjectLine(company, investor, rand), usage))
  }

  /** The `catch` block: a quota or rate-limit code falls back to the template, any other error is rethrown. */
  function CatchOutreach(error: Thrown, investor: Investor, company: Company, customNotes: string, rand: real): (r: Result<Generated, string>)
    requires 0.0 <= rand < 1.0
    ensures r.Ok? <==> error.code.Some? && error.code.value in QuotaCodes
    ensures r.Ok? ==> r.value == Fallback(investor, company, customNotes, rand)
    ensures r.Err? ==> r.error == ErrorText(error.message, OutreachFailure)
  {
    if error.code.Some? && error.code.value in QuotaCodes then Ok(Fallback(investor, company, customNotes, rand))
    else Err(ErrorText(error.message, OutreachFailure))
  }

  /**
   * `generateOutreachMessage`: the generated text, trimmed, when the call gives one; the template
   * fallback after a quota or rate-limit error; the error's message otherwise.
   */
  function GenerateOutreachMessage(aiEnabled: bool, investor: Investor, company: Company, customNotes: string,
                                   completion: Completion, rand: real): (r: Result<Generated, string>)
    requires 0.0 <= rand < 1.0
    ensures r.Ok? ==> r.value.subject in SubjectLines(company, investor)
    ensures r.Err? ==> r.error != ""
  {
    match TryOutreach(aiEnabled, investor, company, completion, rand)
    case Ok(generated) => Ok(generated)
    case Err(error) => CatchOutreach(error, investor, company, customNotes, rand)
  }

  /** The call failed with a quota or rate-limit code while generation was on. */
  predicate FallsBack(aiEnabled: bool, completion: Completion) {
    aiEnabled && completion.Failed? && completion.error.code.Some? && completion.error.code.value in QuotaCodes
  }

  /**
   * The whole decision: a generated text comes back trimmed with the call's usage, the fallback
   * exactly after a quota or rate-limit failure, and every other outcome is an error carrying a
   * non-empty message — the service's own errors have no code and are never recovered.
   */
  lemma OutreachOutcome(aiEnabled: bool, investor: Investor, company: Company, customNotes: string, completion: Completion, rand: real)
    requires 0.0 <= rand < 1.0
    ensures var r := GenerateOutreachMessage(aiEnabled, investor, company, customNotes, completion, rand);
      && (aiEnabled && completion.Completed? && HasText(completion.content) ==>
            r.Ok? && r.value.message == Trim(completion.content.value) && r.value.usage == completion.usage &&
            r.value.subject in SubjectLines(company, investor))
      && (FallsBack(aiEnabled, completion) ==> r == Ok(Fallback(investor, company, customNotes, rand)))
      && (!aiEnabled ==> r == Err(DisabledError))
      && (aiEnabled && completion.Completed? && !HasText(completion.content) ==> r == Err(NoOutreachError))
      && (aiEnabled && completion.Failed? && !FallsBack(aiEnabled, completion) ==>
            r == Err(ErrorText(completion.error.message, OutreachFailure)))
      && (r.Err? ==> r.error != "")
  {
    var tried := TryOutreach(aiEnabled, investor, company, completion, rand);
    if tried.Err? {
      var caught := CatchOutreach(tried.error, investor, company, customNotes, rand);
      assert caught.Err? ==> caught.error != "";
    }
  }

  /** A fallback result is recognisable: its usage is null, while a generated text keeps the call's usage. */
  lemma FallbackHasNoUsage(aiEnabled: bool, investor: Investor, company: Company, customNotes: string, usage: Usage, rand: real)
    requires 0.0 <= rand < 1.0
    ensures var r := GenerateOutreachMessage(aiEnabled, investor, company, customNotes, Completed(Some("x"), Some(usage)), rand);
      (r.Ok? <==> aiEnabled) && (r.Ok? ==> r.value.usage == Some(usage))
    ensures forall code :: code in QuotaCodes ==>
      var r := GenerateOutreachMessage(aiEnabled, investor, company, customNotes, Failed(Thrown(Some(code), "")), rand);
      (r.Ok? <==> aiEnabled) && (r.Ok? ==> r.value.usage.None?)
  {
  }

  // ---- generateFollowUpMessage ----

  /**
   * `generateFollowUpMessage`: no flag check and no fallback; the subject is a drawn subject line
   * after `Re: `.
   */
  function GenerateFollowUpMessage(investor: Investor, company: Company, completion: Completion, rand: real): (r: Result<Generated, string>)
    requires 0.0 <= rand < 1.0
    ensures r.Ok? ==> StartsWith(r.value.subject, FollowUpPrefix)
    ensures r.Err? ==> r.error != ""
  {
    match completion
    case Failed(error) => Err(ErrorText(error.message, FollowUpFailure))
    case Completed(content, usage) =>
      if !HasText(content) then Err(NoFollowUpError)
      else Ok(Generated(Trim(content.value), FollowUpPrefix + GenerateSubjectLine(company, investor, rand), usage))
  }

  /**
   * A follow-up succeeds exactly when the call gives text; its subject is `Re: ` and a subject line,
   * and every failure is an error, whatever its code.
   */
  lemma FollowUpOutcome(investor: Investor, company: Company, completion: Completion, rand: real)
    requires 0.0 <= rand < 1.0
    ensures var r := GenerateFollowUpMessage(investor, company, completion, rand);
      && (r.Ok? <==> completion.Completed? && HasText(completion.content))
      && (r.Ok? ==>
            r.value.message == Trim(completion.content.value) && r.value.usage == completion.usage &&
            StartsWith(r.value.subject, FollowUpPrefix) && r.value.subject[|FollowUpPrefix|..] in SubjectLines(company, investor))
      && (completion.Failed? ==> r == Err(ErrorText(completion.error.message, FollowUpFailure)))
      && (completion.Completed? && !HasText(completion.content) ==> r == Err(NoFollowUpError))
  {
    var r := GenerateFollowUpMessage(investor, company, completion, rand);
    if r.Ok? {
      var line := GenerateSubjectLine(company, investor, rand);
      assert r.value.subject == FollowUpPrefix + line;
      assert r.value.subject[|FollowUpPrefix|..] == line;
    }
  }
}
