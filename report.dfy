// The meeting-report generator: a title, a metadata block between two
// rules, the summary section and the optional decisions, action-item and
// next-meeting sections in that fixed order, a section counter, and a footer.

module Report {
  import opened Text

  /** The generator's input; the optional strings count only when truthy. */
  datatype ReportInput = ReportInput(
    title: string,
    date: Option<string>,
    attendees: Option<string>,
    summary: string,
    decisions: Option<string>,
    actionItems: Option<string>,
    nextMeeting: Option<string>)

  datatype ReportOutput = ReportOutput(report: string, format: string, sectionCount: nat)

  const SummaryHeading: string := "## 📋 サマリー"
  const DecisionsHeading: string := "## ✅ 決定事項"
  const ActionItemsHeading: string := "## 📝 アクションアイテム"
  const NextMeetingHeading: string := "## 📅 次回ミーティング"

  /** The sections of the report, in the order they are written: the
      summary always, then each optional section whose text is truthy. */
  function ReportParts(r: ReportInput): seq<Part> {
    [Part(SummaryHeading, r.summary)]
    + PartIf(Truthy(r.decisions), Part(DecisionsHeading, TextOf(r.decisions)))
    + PartIf(Truthy(r.actionItems), Part(ActionItemsHeading, TextOf(r.actionItems)))
    + PartIf(Truthy(r.nextMeeting), Part(NextMeetingHeading, TextOf(r.nextMeeting)))
  }

  function DateLine(r: ReportInput): string {
    if Truthy(r.date) then "**日時**: " + r.date.value + "\n\n" else ""
  }

  function AttendeesLine(r: ReportInput): string {
    if Truthy(r.attendees) then "**参加者**: " + r.attendees.value + "\n\n" else ""
  }

  /** The date and attendee lines between two rules. */
  function MetadataBlock(r: ReportInput): string {
    "---\n\n" + DateLine(r) + AttendeesLine(r) + "---\n\n"
  }

  /** The rule and the generation notice; `stamp` stands for the locale date. */
  function ReportFooter(stamp: string): string {
    "---\n\n" + "*このレポートは自動生成されました - " + stamp + "*\n"
  }

  function ReportText(r: ReportInput, stamp: string): string {
    "# " + r.title + "\n\n" + MetadataBlock(r) + RenderParts(ReportParts(r)) + ReportFooter(stamp)
  }

  /** The metadata section: the date and attendee lines, each only when
      truthy, between two rules. */
  method AppendMetadataBlock(report: string, r: ReportInput) returns (result: string)
    ensures result == report + MetadataBlock(r)
  {
    result := report + "---\n\n";
    ghost var open := result;
    if Truthy(r.date) {
      result := result + "**日時**: " + r.date.value + "\n\n";
      assert result == open + DateLine(r) by {
        Assoc(open, "**日時**: ", r.date.value);
        Assoc(open, "**日時**: " + r.date.value, "\n\n");
      }
    }
    ghost var dated := result;
    if Truthy(r.attendees) {
      result := result + "**参加者**: " + r.attendees.value + "\n\n";
      assert result == dated + AttendeesLine(r) by {
        Assoc(dated, "**参加者**: ", r.attendees.value);
        Assoc(dated, "**参加者**: " + r.attendees.value, "\n\n");
      }
    }
    result := result + "---\n\n";
    assert result == report + MetadataBlock(r) by {
      Assoc(report, "---\n\n", DateLine(r));
      Assoc(report, "---\n\n" + DateLine(r), AttendeesLine(r));
      Assoc(report, "---\n\n" + DateLine(r) + AttendeesLine(r), "---\n\n");
    }
  }

  /** `createReportTool.execute`. */
  method CreateReport(r: ReportInput, stamp: string) returns (out: ReportOutput)
    ensures out.report == ReportText(r, stamp)
    ensures out.sectionCount == |ReportParts(r)|
    ensures out.format == "markdown"
  {
    var report := "";
    var sectionCount := 0;

    report := report + "# " + r.title + "\n\n";
    assert report == "# " + r.title + "\n\n";

    report := AppendMetadataBlock(report, r);
    assert report == "# " + r.title + "\n\n" + MetadataBlock(r);
    ghost var top := report;
    assert report == top + RenderParts([]);

    report := report + SummaryHeading + "\n\n";
    report := report + r.summary + "\n\n";
    sectionCount := sectionCount + 1;
    ghost var ps := [Part(SummaryHeading, r.summary)];
    assert report == top + RenderParts(ps) by {
      PartStep(top, [], top, report, true, Part(SummaryHeading, r.summary));
    }

    ghost var before := report;
    if Truthy(r.decisions) {
      report := report + DecisionsHeading + "\n\n";
      report := report + r.decisions.value + "\n\n";
      sectionCount := sectionCount + 1;
    }
    PartStep(top, ps, before, report, Truthy(r.decisions), Part(DecisionsHeading, TextOf(r.decisions)));
    ps := ps + PartIf(Truthy(r.decisions), Part(DecisionsHeading, TextOf(r.decisions)));
    assert sectionCount == |ps|;

    before := report;
    if Truthy(r.actionItems) {
      report := report + ActionItemsHeading + "\n\n";
      report := report + r.actionItems.value + "\n\n";
      sectionCount := sectionCount + 1;
    }
    PartStep(top, ps, before, report, Truthy(r.actionItems), Part(ActionItemsHeading, TextOf(r.actionItems)));
    ps := ps + PartIf(Truthy(r.actionItems), Part(ActionItemsHeading, TextOf(r.actionItems)));
    assert sectionCount == |ps|;

    before := report;
    if Truthy(r.nextMeeting) {
      report := report + NextMeetingHeading + "\n\n";
      report := report + r.nextMeeting.value + "\n\n";
      sectionCount := sectionCount + 1;
    }
    PartStep(top, ps, before, report, Truthy(r.nextMeeting), Part(NextMeetingHeading, TextOf(r.nextMeeting)));
    ps := ps + PartIf(Truthy(r.nextMeeting), Part(NextMeetingHeading, TextOf(r.nextMeeting)));
    assert ps == ReportParts(r);

    ghost var page := report;
    report := report + "---\n\n";
    report := report + "*このレポートは自動生成されました - " + stamp + "*\n";
    assert report == page + ReportFooter(stamp) by {
      Assoc(page, "---\n\n", "*このレポートは自動生成されました - ");
      Assoc(page, "---\n\n" + "*このレポートは自動生成されました - ", stamp);
      Assoc(page, "---\n\n" + "*このレポートは自動生成されました - " + stamp, "*\n");
    }
    out := ReportOutput(report, "markdown", sectionCount);
  }

  /** The position of each section heading in the fixed section order. */
  function HeadingRank(h: string): nat {
    if h == SummaryHeading then 0
    else if h == DecisionsHeading then 1
    else if h == ActionItemsHeading then 2
    else if h == NextMeetingHeading then 3
    else 4
  }

  predicate InSectionOrder(ps: seq<Part>) {
    forall i, j :: 0 <= i < j < |ps| ==> HeadingRank(ps[i].heading) < HeadingRank(ps[j].heading)
  }

  lemma HeadingRanks()
    ensures HeadingRank(SummaryHeading) == 0 && HeadingRank(DecisionsHeading) == 1
    ensures HeadingRank(ActionItemsHeading) == 2 && HeadingRank(NextMeetingHeading) == 3
  {
    assert SummaryHeading[3] != DecisionsHeading[3];
    assert SummaryHeading[3] != ActionItemsHeading[3] && DecisionsHeading[3] != ActionItemsHeading[3];
    assert SummaryHeading[3] != NextMeetingHeading[3] && DecisionsHeading[3] != NextMeetingHeading[3];
    assert ActionItemsHeading[3] != NextMeetingHeading[3];
  }

  lemma AppendSection(ps: seq<Part>, present: bool, p: Part)
    requires InSectionOrder(ps) && forall q :: q in ps ==> HeadingRank(q.heading) < HeadingRank(p.heading)
    ensures InSectionOrder(ps + PartIf(present, p))
    ensures forall h :: h in Headings(ps + PartIf(present, p)) <==> h in Headings(ps) || (present && h == p.heading)
  {
    var qs := ps + PartIf(present, p);
    forall h
      ensures h in Headings(qs) <==> h in Headings(ps) || (present && h == p.heading)
    {
      if h in Headings(qs) {
        var i :| 0 <= i < |qs| && Headings(qs)[i] == h;
        if i < |ps| {
          assert Headings(ps)[i] == h;
        }
      }
      if h in Headings(ps) {
        var i :| 0 <= i < |ps| && Headings(ps)[i] == h;
        assert Headings(qs)[i] == h;
      }
      if present && h == p.heading {
        assert Headings(qs)[|ps|] == h;
      }
    }
  }

  /** Sections kept by three presence tests after the summary, in the
      fixed order, come out in increasing rank, and each optional one is
      there exactly when its test holds. */
  lemma PartsInOrder(s: string, pd: bool, d: string, pa: bool, a: string, pn: bool, n: string)
    ensures var ps := [Part(SummaryHeading, s)] + PartIf(pd, Part(DecisionsHeading, d))
                      + PartIf(pa, Part(ActionItemsHeading, a)) + PartIf(pn, Part(NextMeetingHeading, n));
      && InSectionOrder(ps)
      && (DecisionsHeading in Headings(ps) <==> pd)
      && (ActionItemsHeading in Headings(ps) <==> pa)
      && (NextMeetingHeading in Headings(ps) <==> pn)
  {
    HeadingRanks();
    var p0 := [Part(SummaryHeading, s)];
    var p1 := p0 + PartIf(pd, Part(DecisionsHeading, d));
    var p2 := p1 + PartIf(pa, Part(ActionItemsHeading, a));
    assert Headings(p0) == [SummaryHeading];
    AppendSection(p0, pd, Part(DecisionsHeading, d));
    AppendSection(p1, pa, Part(ActionItemsHeading, a));
    AppendSection(p2, pn, Part(NextMeetingHeading, n));
  }

  /** The report's sections come in the fixed order summary, decisions,
      action items, next meeting, and each optional one is there exactly
      when its text is truthy. */
  lemma SectionsInFixedOrder(r: ReportInput)
    ensures var ps := ReportParts(r);
      && InSectionOrder(ps)
      && (DecisionsHeading in Headings(ps) <==> Truthy(r.decisions))
      && (ActionItemsHeading in Headings(ps) <==> Truthy(r.actionItems))
      && (NextMeetingHeading in Headings(ps) <==> Truthy(r.nextMeeting))
  {
    PartsInOrder(r.summary, Truthy(r.decisions), TextOf(r.decisions), Truthy(r.actionItems), TextOf(r.actionItems),
                 Truthy(r.nextMeeting), TextOf(r.nextMeeting));
  }

  /** The summary section is first and holds the summary verbatim; every
      optional section holds its input text verbatim. */
  lemma SectionsCarryTheirText(r: ReportInput)
    ensures var ps := ReportParts(r);
      && ps[0] == Part(SummaryHeading, r.summary)
      && (forall p :: p in ps && p.heading == DecisionsHeading ==> p.text == r.decisions.value)
      && (forall p :: p in ps && p.heading == ActionItemsHeading ==> p.text == r.actionItems.value)
      && (forall p :: p in ps && p.heading == NextMeetingHeading ==> p.text == r.nextMeeting.value)
  {
    HeadingRanks();
  }

  /** The section counter is one for the summary plus one per truthy
      optional section, so it lies between one and four. */
  lemma SectionCountRange(r: ReportInput)
    ensures var n := |ReportParts(r)|;
      && n == 1 + Count(Truthy(r.decisions)) + Count(Truthy(r.actionItems)) + Count(Truthy(r.nextMeeting))
      && 1 <= n <= 4
  {
  }

  function Count(b: bool): nat {
    if b then 1 else 0
  }

  /** The report opens with its title line and the metadata block,
      continues with the summary section, and closes with the rule and the
      generation notice. */
  lemma ReportFrame(r: ReportInput, stamp: string)
    ensures var text, top := ReportText(r, stamp), "# " + r.title + "\n\n" + MetadataBlock(r);
      var summary := SummaryHeading + "\n\n" + r.summary + "\n\n";
      var footer := ReportFooter(stamp);
      && |top| + |summary| + |footer| <= |text|
      && text[..|top|] == top
      && text[|top|..|top| + |summary|] == summary
      && text[|text| - |footer|..] == footer
  {
    var ps := ReportParts(r);
    var top := "# " + r.title + "\n\n" + MetadataBlock(r);
    var summary := SummaryHeading + "\n\n" + r.summary + "\n\n";
    var rest := RenderParts(ps[1..]);
    var footer := ReportFooter(stamp);
    assert RenderParts(ps) == summary + rest by {
      assert ps == [ps[0]] + ps[1..];
      RenderPartsCons(ps[0], ps[1..]);
    }
    assert ReportText(r, stamp) == top + summary + rest + footer by {
      Assoc(top, summary, rest);
    }
    assert ReportText(r, stamp) == top + summary + (rest + footer) by {
      Assoc(top + summary, rest, footer);
    }
    Slices(top, summary, rest + footer);
    Slices(top + summary, rest, footer);
  }

  /** The metadata block sits between two rules, and it holds nothing else
      exactly when neither the date nor the attendees are truthy. */
  lemma MetadataBetweenRules(r: ReportInput)
    ensures var m := MetadataBlock(r);
      && |m| >= 10 && m[..5] == "---\n\n" && m[|m| - 5..] == "---\n\n"
      && (m == "---\n\n---\n\n" <==> !Truthy(r.date) && !Truthy(r.attendees))
  {
  }
}
