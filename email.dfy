// The e-mail generator: a subject line, a greeting, a body section whose
// heading depends on the kind of e-mail, the task list of an action-item
// e-mail, an optional next-steps section, a closing line, and the length of
// the whole text.

module Email {
  import opened Text

  datatype EmailType = SummaryEmail | ActionItemsEmail | FollowUpEmail

  /** The generator's input; the optional strings count only when truthy. */
  datatype EmailInput = EmailInput(
    emailType: EmailType,
    subject: string,
    body: string,
    actionItemsText: Option<string>,
    nextSteps: Option<string>)

  datatype EmailOutput = EmailOutput(email: string, subject: string, wordCount: nat)

  const MeetingSummaryHeading: string := "## 会議サマリー"
  const ActionItemsNoticeHeading: string := "## アクションアイテムのご連絡"
  const FollowUpHeading: string := "## フォローアップ"
  const TasksHeading: string := "### 対応が必要なタスク"
  const NextStepsHeading: string := "## 次のステップ"
  const Greeting: string := "お疲れ様です\n\n"
  const Closing: string := "よろしくお願いします。\n"

  /** The heading of the body section, one per kind of e-mail. */
  function TypeHeading(t: EmailType): string {
    match t
    case SummaryEmail => MeetingSummaryHeading
    case ActionItemsEmail => ActionItemsNoticeHeading
    case FollowUpEmail => FollowUpHeading
  }

  /** The sections the kind of e-mail decides: the body under its heading,
      then, for an action-item e-mail with truthy task text, that text. */
  function TypeParts(e: EmailInput): seq<Part> {
    [Part(TypeHeading(e.emailType), e.body)]
    + PartIf(e.emailType == ActionItemsEmail && Truthy(e.actionItemsText), Part(TasksHeading, TextOf(e.actionItemsText)))
  }

  /** All sections: those of the kind of e-mail, then the next steps when
      truthy. */
  function EmailParts(e: EmailInput): seq<Part> {
    TypeParts(e) + PartIf(Truthy(e.nextSteps), Part(NextStepsHeading, TextOf(e.nextSteps)))
  }

  function SubjectLine(subject: string): string {
    "Subject: " + subject + "\n\n"
  }

  function EmailText(e: EmailInput): string {
    SubjectLine(e.subject) + Greeting + RenderParts(EmailParts(e)) + Closing
  }

  /** The body of the e-mail according to its kind. */
  method AppendTypeSections(email: string, e: EmailInput) returns (result: string)
    ensures result == email + RenderParts(TypeParts(e))
  {
    result := email;
    assert result == email + RenderParts([]);
    var body := Part(TypeHeading(e.emailType), e.body);
    match e.emailType {
      case SummaryEmail =>
        result := result + MeetingSummaryHeading + "\n\n";
        result := result + e.body + "\n\n";
        PartStep(email, [], email, result, true, body);
        assert TypeParts(e) == [] + PartIf(true, body);
      case ActionItemsEmail =>
        result := result + ActionItemsNoticeHeading + "\n\n";
        result := result + e.body + "\n\n";
        PartStep(email, [], email, result, true, body);
        ghost var before := result;
        if Truthy(e.actionItemsText) {
          result := result + TasksHeading + "\n\n";
          result := result + e.actionItemsText.value + "\n\n";
        }
        PartStep(email, [] + PartIf(true, body), before, result, Truthy(e.actionItemsText),
                 Part(TasksHeading, TextOf(e.actionItemsText)));
        assert TypeParts(e) == [] + PartIf(true, body) + PartIf(Truthy(e.actionItemsText), Part(TasksHeading, TextOf(e.actionItemsText)));
      case FollowUpEmail =>
        result := result + FollowUpHeading + "\n\n";
        result := result + e.body + "\n\n";
        PartStep(email, [], email, result, true, body);
        assert TypeParts(e) == [] + PartIf(true, body);
    }
  }

  /** `createEmailTool.execute`. */
  method CreateEmail(e: EmailInput) returns (out: EmailOutput)
    ensures out.email == EmailText(e)
    ensures out.subject == e.subject
    ensures out.wordCount == |out.email|
  {
    var email := "";
    email := email + "Subject: " + e.subject + "\n\n";
    email := email + "お疲れ様です\n\n";
    assert email == SubjectLine(e.subject) + Greeting;
    ghost var top := email;

    email := AppendTypeSections(email, e);
    ghost var before := email;
    if Truthy(e.nextSteps) {
      email := email + NextStepsHeading + "\n\n";
      email := email + e.nextSteps.value + "\n\n";
    }
    PartStep(top, TypeParts(e), before, email, Truthy(e.nextSteps), Part(NextStepsHeading, TextOf(e.nextSteps)));

    email := email + "よろしくお願いします。\n";
    var wordCount := |email|;
    out := EmailOutput(email, e.subject, wordCount);
  }

  /** The five headings are pairwise different, so the heading of the
      body section tells the kind of e-mail. */
  lemma HeadingsDiffer()
    ensures forall a, b :: TypeHeading(a) == TypeHeading(b) ==> a == b
    ensures forall t :: TypeHeading(t) != TasksHeading && TypeHeading(t) != NextStepsHeading
    ensures TasksHeading != NextStepsHeading
  {
    assert MeetingSummaryHeading[3] != ActionItemsNoticeHeading[3];
    assert MeetingSummaryHeading[3] != FollowUpHeading[3];
    assert ActionItemsNoticeHeading[3] != FollowUpHeading[3];
    assert MeetingSummaryHeading[3] != NextStepsHeading[3];
    assert ActionItemsNoticeHeading[3] != NextStepsHeading[3];
    assert FollowUpHeading[3] != NextStepsHeading[3];
    assert TasksHeading[2] != MeetingSummaryHeading[2];
  }

  lemma EmailHeadings(e: EmailInput)
    ensures Headings(EmailParts(e))
         == [TypeHeading(e.emailType)]
            + (if e.emailType == ActionItemsEmail && Truthy(e.actionItemsText) then [TasksHeading] else [])
            + (if Truthy(e.nextSteps) then [NextStepsHeading] else [])
  {
    var b := [Part(TypeHeading(e.emailType), e.body)];
    var t := PartIf(e.emailType == ActionItemsEmail && Truthy(e.actionItemsText), Part(TasksHeading, TextOf(e.actionItemsText)));
    var n := PartIf(Truthy(e.nextSteps), Part(NextStepsHeading, TextOf(e.nextSteps)));
    HeadingsAppend(b + t, n);
    HeadingsAppend(b, t);
  }

  /** The body section comes first, under the heading of the e-mail's kind. */
  lemma BodyComesFirst(e: EmailInput)
    ensures var ps := EmailParts(e);
      && 1 <= |ps| <= 3
      && ps[0] == Part(TypeHeading(e.emailType), e.body)
  {
  }

  /** The task section is there exactly for an action-item e-mail whose task
      text is truthy, and then holds that text right after the body. */
  lemma TasksOnlyInActionItemsEmail(e: EmailInput)
    ensures var ps := EmailParts(e);
      && (TasksHeading in Headings(ps) <==> e.emailType == ActionItemsEmail && Truthy(e.actionItemsText))
      && (TasksHeading in Headings(ps) ==> |ps| >= 2 && ps[1] == Part(TasksHeading, e.actionItemsText.value))
  {
    HeadingsDiffer();
    EmailHeadings(e);
  }

  /** The next-steps section is there exactly when the next steps are
      truthy, and then it is the last section and holds them. */
  lemma NextStepsComeLast(e: EmailInput)
    ensures var ps := EmailParts(e);
      && (NextStepsHeading in Headings(ps) <==> Truthy(e.nextSteps))
      && (Truthy(e.nextSteps) ==> ps[|ps| - 1] == Part(NextStepsHeading, e.nextSteps.value))
  {
    HeadingsDiffer();
    EmailHeadings(e);
  }

  /** The e-mail opens with the subject line, the greeting and the body
      section, and ends with the closing line. */
  lemma EmailFrame(e: EmailInput)
    ensures var text := EmailText(e);
      var opening := SubjectLine(e.subject) + Greeting + (TypeHeading(e.emailType) + "\n\n" + e.body + "\n\n");
      && |opening| + |Closing| <= |text|
      && text[..|opening|] == opening
      && text[|text| - |Closing|..] == Closing
  {
    var ps := EmailParts(e);
    var top := SubjectLine(e.subject) + Greeting;
    var first := TypeHeading(e.emailType) + "\n\n" + e.body + "\n\n";
    var rest := RenderParts(ps[1..]);
    assert RenderParts(ps) == first + rest by {
      assert ps == [ps[0]] + ps[1..];
      RenderPartsCons(ps[0], ps[1..]);
    }
    assert EmailText(e) == top + first + rest + Closing by {
      Assoc(top, first, rest);
    }
    Slices(top + first, rest, Closing);
  }
}
