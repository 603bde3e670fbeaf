/**
 * The email sender: the subject and HTML body composed from an event, and
 * the mapping of the provider's answer to success or an error. The
 * provider client is an `EmailProvider` value.
 */
module Email {
  import opened Wrappers
  import opened Records
  import opened Json

  /** The fields of `resend.emails.send({ from, to, subject, html })`. */
  datatype EmailMessage = EmailMessage(from: Option<Json>, to: Option<Json>, subject: string, html: string)

  /**
   * The provider client: `open` is `new Resend(apiKey)`, which may throw;
   * `send` answers with `{ error }` (`Some` of the error's message) or
   * without, or throws.
   */
  datatype EmailProvider = EmailProvider(
    open: Option<Json> -> Option<Exception>,
    send: (Option<Json>, EmailMessage) -> Result<Option<string>, Exception>)

  /** `[category] title` */
  function Subject(e: Event): string {
    "[" + e.channel + "] " + e.title
  }

  /** When categories hold no `]`, the subject determines the category and the title. */
  lemma SubjectDetermines(e1: Event, e2: Event)
    requires ']' !in e1.channel && ']' !in e2.channel
    requires Subject(e1) == Subject(e2)
    ensures e1.channel == e2.channel && e1.title == e2.title
  {
    var s, c1, c2 := Subject(e1), e1.channel, e2.channel;
    assert s == "[" + c1 + "] " + e1.title == "[" + c2 + "] " + e2.title;
    // A shorter category would put its closing `]` inside the longer one.
    SubjectLayout(c1, e1.title);
    SubjectLayout(c2, e2.title);
    assert s[1..|c1| + 1] == c1;
    assert s[1..|c2| + 1] == c2;
    assert s[|c1| + 3..] == e1.title;
    assert s[|c2| + 3..] == e2.title;
  }

  lemma SubjectLayout(c: string, t: string)
    ensures ("[" + c + "] " + t)[|c| + 1] == ']'
    ensures forall i :: 1 <= i <= |c| ==> ("[" + c + "] " + t)[i] == c[i - 1]
  {
  }

  const DescriptionOpen: string := "<p style=\"margin:16px 0\">"
  const MetadataOpen: string := "<pre style=\"background:#f4f4f5;padding:12px;border-radius:6px;font-size:13px;overflow-x:auto\">"

  /** The description paragraph, or nothing for an empty description. */
  function DescriptionHtml(description: string): (h: string)
    ensures h == "" <==> description == ""
    ensures description != "" ==> h == DescriptionOpen + description + "</p>"
  {
    if description != "" then DescriptionOpen + description + "</p>" else ""
  }

  /** `metadataHtml`: the pretty-printed metadata, or nothing when it has no keys. */
  function MetadataHtml(keys: nat, pretty: string): (h: string)
    ensures h == "" <==> keys == 0
    ensures keys > 0 ==> h == MetadataOpen + pretty + "</pre>"
  {
    if keys > 0 then MetadataOpen + pretty + "</pre>" else ""
  }

  const HtmlHead: string := "\n      <div style=\"font-family:sans-serif;max-width:600px\">\n        <h2 style=\"margin:0 0 8px\">"
  const HtmlAfterTitle: string := "</h2>\n        <p style=\"color:#71717a;margin:0 0 4px;font-size:13px\">"
  const HtmlAfterLine: string := "</p>\n        "
  const HtmlBreak: string := "\n        "
  const HtmlTail: string := "\n      </div>\n    "

  /** The line under the title: category and creation time. */
  function InfoLine(e: Event, createdAt: string): string {
    e.channel + " &middot; " + createdAt
  }

  /** The body template, with the event's creation time as text. */
  function Html(e: Event, createdAt: string, metadataHtml: string): string {
    HtmlHead + e.title + HtmlAfterTitle + InfoLine(e, createdAt) + HtmlAfterLine
    + DescriptionHtml(e.description) + HtmlBreak + metadataHtml + HtmlTail
  }

  predicate IsInfix(a: string, s: string) {
    exists i, j :: 0 <= i <= j <= |s| && s[i..j] == a
  }

  lemma InfixAtEnd(p: string, a: string)
    ensures IsInfix(a, p + a)
  {
    assert (p + a)[|p|..|p| + |a|] == a;
  }

  lemma InfixExtend(a: string, s: string, t: string)
    requires IsInfix(a, s)
    ensures IsInfix(a, s + t)
  {
    var i, j :| 0 <= i <= j <= |s| && s[i..j] == a;
    assert (s + t)[i..j] == a;
  }

  /**
   * The body shows title, category and creation time, the description
   * paragraph when there is a description and the metadata block when it
   * has keys.
   */
  lemma HtmlShows(e: Event, createdAt: string, keys: nat, pretty: string)
    ensures var h := Html(e, createdAt, MetadataHtml(keys, pretty));
      && IsInfix(e.title, h)
      && IsInfix(InfoLine(e, createdAt), h)
      && (e.description != "" ==> IsInfix(DescriptionOpen + e.description + "</p>", h))
      && (keys > 0 ==> IsInfix(MetadataOpen + pretty + "</pre>", h))
  {
    var d, m := DescriptionHtml(e.description), MetadataHtml(keys, pretty);
    var s1 := HtmlHead + e.title;
    var s2 := s1 + HtmlAfterTitle;
    var s3 := s2 + InfoLine(e, createdAt);
    var s4 := s3 + HtmlAfterLine;
    var s5 := s4 + d;
    var s6 := s5 + HtmlBreak;
    var s7 := s6 + m;
    var h := s7 + HtmlTail;
    InfixAtEnd(HtmlHead, e.title);
    InfixExtend(e.title, s1, HtmlAfterTitle);
    InfixExtend(e.title, s2, InfoLine(e, createdAt));
    InfixAtEnd(s2, InfoLine(e, createdAt));
    InfixExtend(e.title, s3, HtmlAfterLine);
    InfixExtend(InfoLine(e, createdAt), s3, HtmlAfterLine);
    InfixExtend(e.title, s4, d);
    InfixExtend(InfoLine(e, createdAt), s4, d);
    InfixAtEnd(s4, d);
    InfixExtend(e.title, s5, HtmlBreak);
    InfixExtend(InfoLine(e, createdAt), s5, HtmlBreak);
    InfixExtend(d, s5, HtmlBreak);
    InfixExtend(e.title, s6, m);
    InfixExtend(InfoLine(e, createdAt), s6, m);
    InfixExtend(d, s6, m);
    InfixAtEnd(s6, m);
    InfixExtend(e.title, s7, HtmlTail);
    InfixExtend(InfoLine(e, createdAt), s7, HtmlTail);
    InfixExtend(d, s7, HtmlTail);
    InfixExtend(m, s7, HtmlTail);
  }

  /** The message `sendEmail` hands to the provider once the metadata is read. */
  function Compose(config: Json, e: Event, createdAt: string, keys: nat, pretty: string): (msg: EmailMessage)
    ensures msg.from == Member(config, "fromEmail") && msg.to == Member(config, "toEmail")
    ensures msg.subject == Subject(e)
    ensures msg.html == Html(e, createdAt, MetadataHtml(keys, pretty))
  {
    EmailMessage(Member(config, "fromEmail"), Member(config, "toEmail"), Subject(e),
      Html(e, createdAt, MetadataHtml(keys, pretty)))
  }

  /** `sendEmail(config, event)`; `showTime` renders the stored creation time. */
  function SendEmail(config: Json, e: Event, codec: JsonCodec, showTime: Timestamp -> string, provider: EmailProvider): Outcome {
    match provider.open(Member(config, "apiKey"))
    case Some(ex) => Threw(ex)
    case None =>
      match codec.parse(MetadataText(e))
      case Err(ex) => Threw(ex)
      case Ok(m) =>
        match KeyCount(m)
        case Err(ex) => Threw(ex)
        case Ok(n) =>
          var msg := Compose(config, e, showTime(e.createdAt), n, codec.prettyPrint(m));
          match provider.send(Member(config, "apiKey"), msg)
          case Err(ex) => Threw(ex)
          case Ok(Some(message)) => Threw(Error(message))
          case Ok(None) => Completed
  }

  /**
   * Once the client is built and the metadata read, the send completes
   * exactly when the provider reports no error, and a reported error is
   * raised with the provider's message.
   */
  lemma SendEmailResult(config: Json, e: Event, codec: JsonCodec, showTime: Timestamp -> string, provider: EmailProvider)
    requires provider.open(Member(config, "apiKey")).None?
    requires codec.parse(MetadataText(e)).Ok? && !codec.parse(MetadataText(e)).value.JNull?
    ensures var m := codec.parse(MetadataText(e)).value;
      var msg := Compose(config, e, showTime(e.createdAt), KeyCount(m).value, codec.prettyPrint(m));
      var answer := provider.send(Member(config, "apiKey"), msg);
      && (SendEmail(config, e, codec, showTime, provider).Completed? <==> answer == Ok(None))
      && (answer.Ok? && answer.value.Some? ==> SendEmail(config, e, codec, showTime, provider) == Threw(Error(answer.value.value)))
  {
  }
}
