/** The style transformer of `getSuggestion`: formality, then humour, then
    enthusiasm, each rewriting the text left by the previous stage and
    recording what it did in the style log. */
module Style {
  import opened Text

  /** The suggestion text and the entries appended to the style log after
      its fixed `Style influences: ` prefix. */
  datatype Styled = Styled(text: string, applied: string)

  const LogPrefix: string := "Style influences: "
  const FormalLead: string := "Considering a formal approach: "
  const CasualCloser: string := " Wanna keep it chill?"
  const JokeSuffix: string := " ...and that's why the programmer quit his job, he didn't get arrays! ;)"
  const ChuckleSuffix: string := " Heh, nice."
  const ExcitedSuffix: string := " Sounds super exciting!!!"
  const MellowSuffix: string := " (Just keeping it mellow)."

  /** The style log as the source prints it. */
  function Log(s: Styled): string {
    LogPrefix + s.applied
  }

  /** Every log entry opens with a capital letter other than `S`, so the
      entries never start with the log prefix. */
  predicate WellFormedEntries(applied: string) {
    |applied| > 0 ==> applied[0] in "HLMEC"
  }

  /** The log entry of the formality stage, empty when it does nothing. */
  function FormalityEntry(formality: string): string {
    if formality == "High" then "High formality applied. "
    else if formality == "Low" then "Low formality applied. "
    else ""
  }

  /** The log entry of the humour stage, empty when it does nothing. */
  function HumorEntry(humor: real): string {
    if humor > 0.7 then "High humor added. "
    else if humor > 0.3 then "Medium humor added. "
    else ""
  }

  /** The log entry of the enthusiasm stage, empty when it does nothing. */
  function EnthusiasmEntry(enthusiasm: string): string {
    if enthusiasm == "Enthusiastic" then "Enthusiastic style added. "
    else if enthusiasm == "Calm" then "Calm style applied. "
    else ""
  }

  /** "High" prepends a formal lead-in, "Low" appends a casual closer, any
      other value (the "Medium" default included) changes nothing. */
  function ApplyFormality(s: Styled, formality: string): (r: Styled)
    ensures formality == "High" ==> r.text == FormalLead + s.text
    ensures formality == "Low" ==> r.text == s.text + CasualCloser
    ensures formality != "High" && formality != "Low" ==> r == s
    ensures r.applied == s.applied + FormalityEntry(formality)
    ensures WellFormedEntries(s.applied) ==> WellFormedEntries(r.applied)
  {
    if formality == "High" then
      Styled(FormalLead + s.text, s.applied + FormalityEntry(formality))
    else if formality == "Low" then
      Styled(s.text + CasualCloser, s.applied + FormalityEntry(formality))
    else s
  }

  /** Above 0.7 the joke is appended, above 0.3 the chuckle, otherwise
      nothing. */
  function ApplyHumor(s: Styled, humor: real): (r: Styled)
    ensures s.text <= r.text
    ensures humor > 0.7 ==> r.text[|s.text|..] == JokeSuffix
    ensures 0.3 < humor <= 0.7 ==> r.text[|s.text|..] == ChuckleSuffix
    ensures humor <= 0.3 ==> r == s
    ensures r.applied == s.applied + HumorEntry(humor)
    ensures WellFormedEntries(s.applied) ==> WellFormedEntries(r.applied)
  {
    if humor > 0.7 then
      Styled(s.text + JokeSuffix, s.applied + HumorEntry(humor))
    else if humor > 0.3 then
      Styled(s.text + ChuckleSuffix, s.applied + HumorEntry(humor))
    else s
  }

  /** The Calm rewrite of a text: every `!` becomes `.` and the mellow note
      is appended. */
  function CalmText(t: string): (r: string)
    ensures '!' !in r
    ensures |r| == |t| + |MellowSuffix| && r[|t|..] == MellowSuffix
    ensures r[..|t|] == MapChar(t, '!', '.')
  {
    ReplaceCharIsMap(t, '!', '.');
    var body := ReplaceAll(t, "!", ".");
    assert '!' !in MellowSuffix;
    assert (body + MellowSuffix)[|t|..] == MellowSuffix;
    assert (body + MellowSuffix)[..|t|] == body;
    body + MellowSuffix
  }

  /** "Enthusiastic" appends an excited closer; "Calm" turns every `!` of the
      text so far into `.` and appends a mellow note; anything else changes
      nothing. */
  function ApplyEnthusiasm(s: Styled, enthusiasm: string): (r: Styled)
    ensures enthusiasm == "Enthusiastic" ==> s.text <= r.text && r.text[|s.text|..] == ExcitedSuffix
    ensures enthusiasm == "Calm" ==> '!' !in r.text
    ensures enthusiasm == "Calm" ==> |r.text| == |s.text| + |MellowSuffix| && r.text[|s.text|..] == MellowSuffix
    ensures enthusiasm == "Calm" ==> r.text[..|s.text|] == MapChar(s.text, '!', '.')
    ensures enthusiasm != "Enthusiastic" && enthusiasm != "Calm" ==> r == s
    ensures r.applied == s.applied + EnthusiasmEntry(enthusiasm)
    ensures WellFormedEntries(s.applied) ==> WellFormedEntries(r.applied)
  {
    if enthusiasm == "Enthusiastic" then
      Styled(s.text + ExcitedSuffix, s.applied + EnthusiasmEntry(enthusiasm))
    else if enthusiasm == "Calm" then
      Styled(CalmText(s.text), s.applied + EnthusiasmEntry(enthusiasm))
    else s
  }

  /** The three stages in their fixed order: the log holds the entry of
      every stage that fired, formality first, then humour, then
      enthusiasm. */
  function ApplyStyle(text: string, formality: string, humor: real, enthusiasm: string): (r: Styled)
    ensures r.applied == FormalityEntry(formality) + HumorEntry(humor) + EnthusiasmEntry(enthusiasm)
    ensures WellFormedEntries(r.applied)
  {
    var f := ApplyFormality(Styled(text, ""), formality);
    assert f.applied == FormalityEntry(formality) by {
      assert "" + FormalityEntry(formality) == FormalityEntry(formality);
    }
    ApplyEnthusiasm(ApplyHumor(f, humor), enthusiasm)
  }

  /** A style was applied exactly when one of the three stages did
      something. */
  predicate AnyStyleFires(formality: string, humor: real, enthusiasm: string) {
    formality == "High" || formality == "Low" || humor > 0.3
    || enthusiasm == "Enthusiastic" || enthusiasm == "Calm"
  }

  /** The log gains an entry exactly when some stage fired, and the neutral
      settings return the text untouched. */
  lemma StyleLogRecordsStages(text: string, formality: string, humor: real, enthusiasm: string)
    ensures ApplyStyle(text, formality, humor, enthusiasm).applied != "" <==> AnyStyleFires(formality, humor, enthusiasm)
    ensures !AnyStyleFires(formality, humor, enthusiasm) ==> ApplyStyle(text, formality, humor, enthusiasm).text == text
  {
  }

  /** What survives to the returned suggestion: under "Calm" there is no `!`
      left and the text ends with the mellow note; under any other setting
      the base text and the humour suffix appear intact. */
  lemma StyleOutcome(text: string, formality: string, humor: real, enthusiasm: string)
    ensures enthusiasm == "Calm" ==>
      var r := ApplyStyle(text, formality, humor, enthusiasm).text;
      '!' !in r && |r| >= |MellowSuffix| && r[|r| - |MellowSuffix|..] == MellowSuffix
    ensures enthusiasm != "Calm" ==> Contains(ApplyStyle(text, formality, humor, enthusiasm).text, text)
    ensures enthusiasm != "Calm" && humor > 0.7 ==>
      Contains(ApplyStyle(text, formality, humor, enthusiasm).text, JokeSuffix)
    ensures enthusiasm != "Calm" && 0.3 < humor <= 0.7 ==>
      Contains(ApplyStyle(text, formality, humor, enthusiasm).text, ChuckleSuffix)
  {
    if enthusiasm != "Calm" {
      StyleKeepsTextAndHumor(text, formality, humor, enthusiasm);
    }
  }

  /** Without "Calm", the formality output, and with it the base text and
      the humour suffix, survive into the final text. */
  lemma StyleKeepsTextAndHumor(text: string, formality: string, humor: real, enthusiasm: string)
    requires enthusiasm != "Calm"
    ensures Contains(ApplyStyle(text, formality, humor, enthusiasm).text, text)
    ensures humor > 0.7 ==> Contains(ApplyStyle(text, formality, humor, enthusiasm).text, JokeSuffix)
    ensures 0.3 < humor <= 0.7 ==> Contains(ApplyStyle(text, formality, humor, enthusiasm).text, ChuckleSuffix)
  {
    var f := ApplyFormality(Styled(text, ""), formality);
    var h := ApplyHumor(f, humor);
    var e := ApplyEnthusiasm(h, enthusiasm);
    assert h.text <= e.text;
    FormalityKeepsText(text, formality);
    ContainsPrefix(e.text, f.text);
    ContainsTransitive(e.text, f.text, text);
    if humor > 0.3 {
      var suffix := if humor > 0.7 then JokeSuffix else ChuckleSuffix;
      assert h.text == f.text + suffix;
      var rest := e.text[|h.text|..];
      assert e.text == f.text + suffix + rest;
      ContainsMiddle(f.text, suffix, rest);
    }
  }

  /** The formality stage keeps the base text. */
  lemma FormalityKeepsText(text: string, formality: string)
    ensures Contains(ApplyFormality(Styled(text, ""), formality).text, text)
  {
    var f := ApplyFormality(Styled(text, ""), formality);
    if formality == "High" {
      ContainsMiddle(FormalLead, text, "");
      assert FormalLead + text + "" == f.text;
    } else {
      ContainsPrefix(f.text, text);
    }
  }
}
