/** What the REST transport hands the dealing core for one parsed answer of the broker. */
module DemoTransport {
  import opened Outcomes
  import opened Strings
  import opened Decimals
  import opened DemoExecution
  import Json

  type Document = Json.Value<string>

  /** Without the blanks at either end. */
  function Stripped(s: string): (r: string)
    ensures NonBlank(s) ==> r != ""
    decreases |s|
  {
    if s == "" then ""
    else if s[0] == ' ' then
      assert NonBlank(s) ==> NonBlank(s[1..]) by { BlankFirst(s); }
      Stripped(s[1..])
    else if s[|s| - 1] == ' ' then
      assert s[..|s| - 1] != "" ==> s[..|s| - 1][0] != ' ';
      Stripped(s[..|s| - 1])
    else s
  }

  lemma BlankFirst(s: string)
    requires s != "" && s[0] == ' '
    ensures NonBlank(s) <==> NonBlank(s[1..])
  {
    if i :| 0 <= i < |s| && s[i] != ' ' {
      assert s[1..][i - 1] != ' ';
    }
    if i :| 0 <= i < |s[1..]| && s[1..][i] != ' ' {
      assert s[i + 1] != ' ';
    }
  }

  /** A text that is not blank, stripped. */
  function TextOf(v: Document): (o: Option<string>)
    ensures o != Some("")
  {
    if v.Text? && NonBlank(v.text) then Some(Stripped(v.text)) else None
  }

  function Otherwise(o: Option<string>, fallback: string): string {
    if o.Some? then o.value else fallback
  }

  function DirectionOf(v: Document): Option<Direction> {
    if v == Json.Text("BUY") then Some(Buy) else if v == Json.Text("SELL") then Some(Sell) else None
  }

  predicate Identifier(text: string) {
    NonBlank(text) && '/' !in text && '?' !in text
  }

  /** The texts of a submission that can be stored and read back as they are. */
  predicate PlainSubmission(s: Submission) {
    s.dealReference != "" && s.dealId != Some("")
  }

  predicate PlainConfirmation(c: Confirmation) {
    c.dealReference != "" && c.status != "" && c.dealId != Some("") && c.epic != Some("")
  }

  /** The submission in the acknowledgement of a create or close call. */
  function Acknowledged(document: Document): (reply: Reply<Submission>)
    requires document.Object?
    ensures reply.Returns? ==> PlainSubmission(reply.value)
  {
    match TextOf(Json.Get(document, "dealReference"))
    case None => Raises
    case Some(reference) => Returns(Submission(reference, TextOf(Json.Get(document, "dealId"))))
  }

  /** The confirmation for a deal reference; decimal stands for reading a number or its text. */
  function GetConfirmation(answer: Reply<Document>, asked: string, decimal: Document -> Option<Decimal>)
    : (reply: Reply<Option<Confirmation>>)
    ensures reply.Returns? ==> reply.value.Some? && PlainConfirmation(reply.value.value)
  {
    if !Identifier(asked) || answer.Raises? || !answer.value.Object? then Raises
    else
      var d := answer.value;
      var dealStatus := TextOf(Json.Get(d, "dealStatus"));
      if dealStatus != Some("ACCEPTED") && dealStatus != Some("REJECTED") then Raises
      else
        Returns(Some(Confirmation(
                       Otherwise(TextOf(Json.Get(d, "dealReference")), asked), TextOf(Json.Get(d, "dealId")),
                       if dealStatus == Some("ACCEPTED") then Accepted else Rejected,
                       Otherwise(TextOf(Json.Get(d, "status")), "UNKNOWN"), TextOf(Json.Get(d, "epic")),
                       DirectionOf(Json.Get(d, "direction")), decimal(Json.Get(d, "size")), decimal(Json.Get(d, "level")),
                       decimal(Json.Get(d, "stopLevel")), decimal(Json.Get(d, "limitLevel")))))
  }

  // ---------------------------------------------------------------- what is read from where

  ghost predicate Blank(s: string) {
    forall i :: 0 <= i < |s| ==> s[i] == ' '
  }

  /** Only blanks at the ends go. */
  lemma {:induction false} StrippedMeans(s: string) returns (a: string, b: string)
    ensures s == a + Stripped(s) + b && Blank(a) && Blank(b)
    ensures Stripped(s) != "" ==> Stripped(s)[0] != ' ' && Stripped(s)[|Stripped(s)| - 1] != ' '
    decreases |s|
  {
    a, b := "", "";
    if s != "" && s[0] == ' ' {
      a, b := StrippedMeans(s[1..]);
      a := " " + a;
      assert s == [s[0]] + s[1..];
    } else if s != "" && s[|s| - 1] == ' ' {
      a, b := StrippedMeans(s[..|s| - 1]);
      b := b + " ";
      assert s == s[..|s| - 1] + [s[|s| - 1]];
    }
  }

  /** The text at a member: absent when it is missing, of another kind or blank. */
  ghost function TextAt(d: Document, name: string): Option<string>
    requires d.Object?
  {
    if name in d.members && d.members[name].Text? && !Blank(d.members[name].text) then Some(Stripped(d.members[name].text))
    else None
  }

  lemma TextIsAt(d: Document, name: string)
    requires d.Object?
    ensures TextOf(Json.Get(d, name)) == TextAt(d, name)
  {
  }

  /** A reference that can stand in the address of a request. */
  ghost predicate Askable(reference: string) {
    !Blank(reference) && forall i :: 0 <= i < |reference| ==> reference[i] != '/' && reference[i] != '?'
  }

  /** A confirmation is handed on exactly when one can be asked for and the answer states one of the two outcomes. */
  lemma ConfirmedIff(answer: Reply<Document>, asked: string, decimal: Document -> Option<Decimal>)
    ensures GetConfirmation(answer, asked, decimal).Returns? <==>
            && Askable(asked) && answer.Returns? && answer.value.Object?
            && (TextAt(answer.value, "dealStatus") == Some("ACCEPTED") || TextAt(answer.value, "dealStatus") == Some("REJECTED"))
  {
    if answer.Returns? && answer.value.Object? {
      TextIsAt(answer.value, "dealStatus");
    }
  }

  /** Each field of it is what the answer holds at that member; only a missing reference and status have a substitute. */
  lemma ConfirmationReads(answer: Reply<Document>, asked: string, decimal: Document -> Option<Decimal>)
    requires GetConfirmation(answer, asked, decimal).Returns?
    ensures answer.Returns? && answer.value.Object?
    ensures var d, c := answer.value, GetConfirmation(answer, asked, decimal).value.value;
            && (c.dealStatus == Accepted <==> TextAt(d, "dealStatus") == Some("ACCEPTED"))
            && (c.dealStatus == Rejected <==> TextAt(d, "dealStatus") == Some("REJECTED"))
            && c.dealReference == (if TextAt(d, "dealReference").Some? then TextAt(d, "dealReference").value else asked)
            && c.status == (if TextAt(d, "status").Some? then TextAt(d, "status").value else "UNKNOWN")
            && c.dealId == TextAt(d, "dealId") && c.epic == TextAt(d, "epic")
            && (c.direction == Some(Buy) <==> Json.Get(d, "direction") == Json.Text("BUY"))
            && (c.direction == Some(Sell) <==> Json.Get(d, "direction") == Json.Text("SELL"))
            && c.size == decimal(Json.Get(d, "size")) && c.level == decimal(Json.Get(d, "level"))
            && c.stopLevel == decimal(Json.Get(d, "stopLevel")) && c.limitLevel == decimal(Json.Get(d, "limitLevel"))
  {
    var d := answer.value;
    TextIsAt(d, "dealStatus");
    TextIsAt(d, "dealReference");
    TextIsAt(d, "dealId");
    TextIsAt(d, "status");
    TextIsAt(d, "epic");
  }

  /** A submission is handed on exactly when the acknowledgement has a reference. */
  lemma AcknowledgementReads(d: Document)
    requires d.Object?
    ensures Acknowledged(d)
            == if TextAt(d, "dealReference").Some?
               then Returns(Submission(TextAt(d, "dealReference").value, TextAt(d, "dealId"))) else Raises
  {
    TextIsAt(d, "dealReference");
    TextIsAt(d, "dealId");
  }
}
