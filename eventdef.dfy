/** The rendering side of the notifier (src/teams/eventdef.js): Markdown links with their
    suppression switch, the Adaptive Card that an attachment is rendered into, and the defaults
    filled into an attachment before rendering. */
module EventDef {
  import opened Values
  import opened Strings
  import Teams

  // ---------------------------------------------------------------------------------------
  // The card tree
  // ---------------------------------------------------------------------------------------

  /** One entry of an attachment's `fields`. */
  datatype Field = Field(title: Option<string>, value: Option<string>)

  /** The optional properties of a TextBlock; `None` means the property is not set. */
  datatype TextStyle = TextStyle(
    color: Option<string>,
    wrap: Option<bool>,
    spacing: Option<string>,
    separator: Option<bool>,
    fontType: Option<string>,
    size: Option<string>,
    weight: Option<string>,
    horizontalAlignment: Option<string>,
    isSubtle: Option<bool>)

  const NoStyle: TextStyle := TextStyle(None, None, None, None, None, None, None, None, None)

  datatype Block =
    | TextBlock(text: Option<string>, style: TextStyle)
    | Image(url: string)
    | ColumnSet(columns: seq<Column>, spacing: Option<string>)

  datatype Column = Column(items: seq<Block>, width: string, spacing: Option<string>)

  datatype Card = Card(kind: string, schema: string, version: string, body: seq<Block>)

  datatype CardAttachment = CardAttachment(contentType: string, content: Card)

  /** The message posted to the webhook. */
  datatype Message = Message(kind: string, attachments: seq<CardAttachment>)

  // ---------------------------------------------------------------------------------------
  // Markdown links
  // ---------------------------------------------------------------------------------------

  /** `/true|1/i.test(process.env.HIDE_AWS_LINKS || "")`: the setting contains "true" in any
      letter case, or the digit 1, anywhere. */
  predicate LinksHidden(hideAwsLinks: Option<string>): (hidden: bool)
    ensures !Truthy(hideAwsLinks) ==> !hidden
    ensures hideAwsLinks.Some? ==>
      (hidden <==> Contains(Lower(hideAwsLinks.value), "true") || '1' in hideAwsLinks.value)
  {
    var setting := hideAwsLinks.GetOr("");
    ContainsChar(setting, '1');
    FirstCharMissing("", "true");
    Contains(Lower(setting), "true") || Contains(setting, "1")
  }

  /** A link: printed as `[text](url)`, or as its text alone when links are hidden. */
  datatype MarkdownLink = MarkdownLink(url: Option<string>, text: Option<string>, willPrintLink: bool) {

    /** `toString()`: the bare text when links are suppressed, `[text](url)` otherwise. */
    function ToString(): (r: Option<string>)
      ensures !willPrintLink ==> r == text
      ensures willPrintLink ==>
                && r.Some? && HasPrefix(r.value, "[" + Interpolate(text) + "](")
                && r.value == LinkMarkup(Interpolate(text), Interpolate(url))
                && r.value[|r.value| - 1] == ')'
    {
      if !willPrintLink then text else Some(LinkMarkup(Interpolate(text), Interpolate(url)))
    }
  }

  /** The Markdown link syntax `[text](url)`. */
  function LinkMarkup(text: string, url: string): string {
    "[" + text + "](" + url + ")"
  }

  /** `new MarkdownLink(url, text)`: the suppression switch is read when the link is made. */
  function NewMarkdownLink(url: Option<string>, text: Option<string>, hideAwsLinks: Option<string>): (l: MarkdownLink)
    ensures l.url == url && l.text == text
    ensures l.willPrintLink <==> !LinksHidden(hideAwsLinks)
    ensures !Truthy(hideAwsLinks) ==> l.willPrintLink
  {
    MarkdownLink(url, text, !LinksHidden(hideAwsLinks))
  }

  /** A link prints as its text when links are hidden and as `[text](url)` otherwise. */
  lemma LinkText(url: string, text: string, hideAwsLinks: Option<string>)
    ensures NewMarkdownLink(Some(url), Some(text), hideAwsLinks).ToString()
         == Some(if LinksHidden(hideAwsLinks) then text else LinkMarkup(text, url))
  {
  }

  /** With links shown, `("http://x", "Label")` prints as `[Label](http://x)`; with links
      hidden, as `Label`. */
  lemma LinkExample(hideAwsLinks: Option<string>)
    ensures !LinksHidden(hideAwsLinks) ==> NewMarkdownLink(Some("http://x"), Some("Label"), hideAwsLinks).ToString() == Some("[Label](http://x)")
    ensures LinksHidden(hideAwsLinks) ==> NewMarkdownLink(Some("http://x"), Some("Label"), hideAwsLinks).ToString() == Some("Label")
  {
    assert LinkMarkup("Label", "http://x") == "[Label](http://x)";
  }

  /** The suppression test is a substring match, so "1", "10", "TRUE" and "untrue" all hide
      links, while an unset or empty setting, "false", "0" and "yes" show them. */
  lemma {:induction false} LinksHiddenExamples()
    ensures LinksHidden(Some("1")) && LinksHidden(Some("10"))
    ensures LinksHidden(Some("TRUE")) && LinksHidden(Some("untrue"))
    ensures !LinksHidden(None) && !LinksHidden(Some(""))
    ensures !LinksHidden(Some("false")) && !LinksHidden(Some("0")) && !LinksHidden(Some("yes"))
  {
    ContainsChar("1", '1');
    ContainsChar("10", '1');
    assert Lower("TRUE") == "true";
    assert OccursAt(Lower("TRUE"), "true", 0);
    assert Lower("untrue") == "untrue";
    assert OccursAt(Lower("untrue"), "true", 2);
    var unset := ["", "false", "0", "yes"];
    forall s | s in unset ensures !LinksHidden(Some(s)) {
      assert Lower(s) == s;
      FirstCharMissing(s, "true");
      FirstCharMissing(s, "1");
    }
    assert !LinksHidden(Some(""));
  }

  // ---------------------------------------------------------------------------------------
  // The blocks of a card
  // ---------------------------------------------------------------------------------------

  function AuthorBlock(authorName: Option<string>, color: Option<string>): Block {
    TextBlock(authorName, NoStyle.(color := color))
  }

  function TitleBlock(link: Option<string>): Block {
    TextBlock(link, NoStyle.(wrap := Some(true), spacing := Some("Small")))
  }

  function BodyTextBlock(text: Option<string>): Block {
    TextBlock(text, NoStyle.(wrap := Some(true), separator := Some(true), fontType := Some("Default"), size := Some("Small")))
  }

  function FieldTitleCell(title: Option<string>): Block {
    TextBlock(title, NoStyle.(weight := Some("Bolder"), size := Some("Small")))
  }

  function FieldValueCell(value: Option<string>): Block {
    TextBlock(value, NoStyle.(size := Some("Small")))
  }

  const FooterStyle: TextStyle := NoStyle.(size := Some("Small"), spacing := Some("Small"),
    horizontalAlignment := Some("Right"), weight := Some("Lighter"), isSubtle := Some(true))

  function FooterBlock(footer: string): Block {
    TextBlock(Some(footer), FooterStyle)
  }

  predicate IsFooterBlock(b: Block) {
    b.TextBlock? && b.style == FooterStyle
  }

  /** The left column of the field table: one bold cell per field, holding its title. */
  function TitleColumn(fields: seq<Field>): (cells: seq<Block>)
    ensures |cells| == |fields|
    ensures forall i :: 0 <= i < |fields| ==> cells[i] == FieldTitleCell(fields[i].title)
  {
    if fields == [] then [] else [FieldTitleCell(fields[0].title)] + TitleColumn(fields[1..])
  }

  /** The right column of the field table: one cell per field, holding its value. */
  function ValueColumn(fields: seq<Field>): (cells: seq<Block>)
    ensures |cells| == |fields|
    ensures forall i :: 0 <= i < |fields| ==> cells[i] == FieldValueCell(fields[i].value)
  {
    if fields == [] then [] else [FieldValueCell(fields[0].value)] + ValueColumn(fields[1..])
  }

  /** The two-column field table; `_.map` of an undefined `fields` is empty. The two columns
      are aligned: row i holds a cell with the title of field i on the left and one with its
      value on the right, so both have one cell per field. */
  function FieldTable(fields: Option<seq<Field>>): (table: Block)
    ensures var fs := fields.GetOr([]);
            && table.ColumnSet? && table.spacing == Some("Small")
            && |table.columns| == 2
            && table.columns[0].width == "auto" && table.columns[1].width == "stretch"
            && |table.columns[0].items| == |fs| == |table.columns[1].items|
            && forall i :: 0 <= i < |fs| ==>
                 && table.columns[0].items[i] == FieldTitleCell(fs[i].title)
                 && table.columns[1].items[i] == FieldValueCell(fs[i].value)
  {
    var fs := fields.GetOr([]);
    ColumnSet([Column(TitleColumn(fs), "auto", Some("Small")), Column(ValueColumn(fs), "stretch", None)], Some("Small"))
  }

  /** The fixed envelope: one Adaptive Card (schema version 1.2) in one attachment, whose body
      is a single ColumnSet with one stretch Column holding `items`. */
  function Envelope(items: seq<Block>): Message {
    Message("message", [CardAttachment("application/vnd.microsoft.card.adaptive",
      Card("AdaptiveCard", "http://adaptivecards.io/schemas/adaptive-card.json", "1.2",
        [ColumnSet([Column(items, "stretch", None)], None)]))])
  }

  /** The items of a message shaped like an envelope, and none otherwise. */
  function CardItems(m: Message): seq<Block> {
    if && |m.attachments| == 1
       && |m.attachments[0].content.body| == 1
       && m.attachments[0].content.body[0].ColumnSet?
       && |m.attachments[0].content.body[0].columns| == 1
    then m.attachments[0].content.body[0].columns[0].items
    else []
  }

  /** The attachment properties a card is built from. */
  datatype CardSource = CardSource(
    authorName: Option<string>,
    title: Option<string>,
    titleLink: Option<string>,
    text: Option<string>,
    fields: Option<seq<Field>>,
    footer: Option<string>,
    imageUrl: Option<string>,
    color: Option<string>)

  /** The item list of a rendered card: author (coloured verbatim), linked title, text and the
      field table, then an Image iff `imageUrl` is truthy, then a footer iff `footer` is truthy. */
  predicate ItemsFor(src: CardSource, hideAwsLinks: Option<string>, items: seq<Block>) {
    && |items| == 4 + (if Truthy(src.imageUrl) then 1 else 0) + (if Truthy(src.footer) then 1 else 0)
    && items[0] == AuthorBlock(src.authorName, src.color)
    && items[1] == TitleBlock(NewMarkdownLink(src.titleLink, src.title, hideAwsLinks).ToString())
    && items[2] == BodyTextBlock(src.text)
    && items[3] == FieldTable(src.fields)
    && (Truthy(src.imageUrl) ==> items[4] == Image(src.imageUrl.value))
    && (Truthy(src.footer) ==> items[|items| - 1] == FooterBlock(src.footer.value))
  }

  /** `m` is the card `render` produces for `src`. */
  predicate IsRendering(src: CardSource, hideAwsLinks: Option<string>, m: Message) {
    m == Envelope(CardItems(m)) && ItemsFor(src, hideAwsLinks, CardItems(m))
  }

  /** The description of a rendering is complete: two messages that both render `src` are the
      same message. */
  lemma {:induction false} RenderingIsUnique(src: CardSource, hideAwsLinks: Option<string>, m1: Message, m2: Message)
    requires IsRendering(src, hideAwsLinks, m1) && IsRendering(src, hideAwsLinks, m2)
    ensures m1 == m2
  {
    var items1, items2 := CardItems(m1), CardItems(m2);
    assert |items1| == |items2|;
    forall i | 0 <= i < |items1| ensures items1[i] == items2[i] {
      if i == 4 && Truthy(src.imageUrl) {
      } else if i == |items1| - 1 && Truthy(src.footer) {
      }
    }
    assert items1 == items2;
  }

  /** The optional blocks appear exactly when their property is truthy: an Image block at
      position 4 iff `imageUrl` is truthy, and a footer block iff `footer` is truthy, and then it
      is the last item, after the image. Without a footer no footer block is emitted at all. */
  lemma {:induction false} OptionalBlocks(src: CardSource, hideAwsLinks: Option<string>, m: Message)
    requires IsRendering(src, hideAwsLinks, m)
    ensures var items := CardItems(m);
            && (|items| > 4 && items[4].Image? <==> Truthy(src.imageUrl))
            && ((exists i :: 0 <= i < |items| && IsFooterBlock(items[i])) <==> Truthy(src.footer))
            && (Truthy(src.footer) ==> IsFooterBlock(items[|items| - 1]))
  {
    var items := CardItems(m);
    if Truthy(src.footer) {
      assert IsFooterBlock(items[|items| - 1]);
    } else {
      forall i | 0 <= i < |items| ensures !IsFooterBlock(items[i]) {
        if i == 0 {
          assert items[0].style.horizontalAlignment.None?;
        } else if i == 1 {
          assert items[1].style.horizontalAlignment.None?;
        } else if i == 2 {
          assert items[2].style.horizontalAlignment.None?;
        }
      }
    }
  }

  /** An Adaptive Card, built from an attachment. */
  class AdaptiveCard {
    const authorName: Option<string>
    const title: Option<string>
    const titleLink: Option<string>
    const text: Option<string>
    const fields: Option<seq<Field>>
    const footer: Option<string>
    const imageUrl: Option<string>
    const color: Option<string>

    function Source(): CardSource {
      CardSource(authorName, title, titleLink, text, fields, footer, imageUrl, color)
    }

    /** `new AdaptiveCard(attachment)` copies the attachment's properties. */
    constructor (attachment: Attachment)
      ensures Source() == attachment.Source()
    {
      authorName := attachment.authorName;
      title := attachment.title;
      titleLink := attachment.titleLink;
      text := attachment.text;
      fields := attachment.fields;
      footer := attachment.footer;
      imageUrl := attachment.imageUrl;
      color := attachment.color;
    }

    /** `render()`: the four fixed items, then the optional image and footer pushed in that
        order, wrapped in the card envelope. */
    method Render(hideAwsLinks: Option<string>) returns (m: Message)
      ensures IsRendering(Source(), hideAwsLinks, m)
    {
      var items := [
        AuthorBlock(authorName, color),
        TitleBlock(NewMarkdownLink(titleLink, title, hideAwsLinks).ToString()),
        BodyTextBlock(text),
        FieldTable(fields)
      ];
      if Truthy(imageUrl) {
        items := items + [Image(imageUrl.value)];
      }
      if Truthy(footer) {
        items := items + [FooterBlock(footer.value)];
      }
      m := Envelope(items);
    }
  }

  // ---------------------------------------------------------------------------------------
  // Attachment defaults
  // ---------------------------------------------------------------------------------------

  /** The values `attachment.ts` takes here: unset, a number, a string or a Date (by its
      `getTime()` in milliseconds). */
  datatype TsValue = Undefined | Number(n: int) | Text(s: string) | Date(ms: int)

  predicate TsTruthy(t: TsValue) {
    match t
    case Undefined => false
    case Number(n) => n != 0
    case Text(s) => s != ""
    case Date(_) => true
  }

  /** The timestamp after defaulting: a falsy `ts` becomes the event time, or now when that is
      falsy, and a Date becomes integer epoch seconds; so the result is never a Date. */
  function DefaultTs(ts: TsValue, eventTime: TsValue, now: int): (r: TsValue)
    ensures ts.Date? ==> r == Number(Teams.ToEpochTime(ts.ms))
    ensures TsTruthy(ts) && !ts.Date? ==> r == ts
    ensures !TsTruthy(ts) && eventTime.Date? ==> r == Number(Teams.ToEpochTime(eventTime.ms))
    ensures !TsTruthy(ts) && TsTruthy(eventTime) && !eventTime.Date? ==> r == eventTime
    ensures !TsTruthy(ts) && !TsTruthy(eventTime) ==> r == Number(Teams.ToEpochTime(now))
    ensures !r.Date?
  {
    var filled := if TsTruthy(ts) then ts else if TsTruthy(eventTime) then eventTime else Date(now);
    if filled.Date? then Number(Teams.ToEpochTime(filled.ms)) else filled
  }

  /** The parts of an SNS subscription ARN, as the event parser delivers them. */
  datatype Arn = Arn(region: string, account: string, suffix: string)

  /** `_.split(s, ":")[0]`: the text before the first colon, or all of `s` without one. */
  function FirstSegment(s: string): (r: string)
    ensures ':' !in r
    ensures HasPrefix(s, r)
    ensures |r| == |s| || s[|r|] == ':'
  {
    if s == [] || s[0] == ':' then [] else [s[0]] + FirstSegment(s[1..])
  }

  /** The topic shown in the footer: topics longer than 40 characters are cut to their first 35
      characters and an ellipsis. */
  function VisibleTopic(topic: string): (r: string)
    ensures |r| <= 40
    ensures |topic| <= 40 ==> r == topic
    ensures |topic| > 40 ==> |r| == 38 && HasPrefix(topic, r[..35]) && r[35..] == "..."
  {
    if |topic| > 40 then topic[..35] + "..." else topic
  }

  /** The console page of an SNS topic, relative to the console. */
  function TopicPath(arn: Arn, topic: string): string {
    "/sns/v2/home?region=" + arn.region + "#/topics/arn:aws:sns:" + arn.region + ":" + arn.account + ":" + topic
  }

  function SigninUrl(arn: Arn): string {
    "https://" + arn.account + ".signin.aws.amazon.com/console/sns?region=" + arn.region
  }

  /** An attachment as the caller builds it; attachmentWithDefaults updates `ts` and `footer`. */
  class Attachment {
    var authorName: Option<string>
    var title: Option<string>
    var titleLink: Option<string>
    var text: Option<string>
    var fields: Option<seq<Field>>
    var footer: Option<string>
    var imageUrl: Option<string>
    var color: Option<string>
    var ts: TsValue

    constructor (src: CardSource, ts: TsValue)
      ensures Source() == src && this.ts == ts
    {
      authorName, title, titleLink, text := src.authorName, src.title, src.titleLink, src.text;
      fields, footer, imageUrl, color := src.fields, src.footer, src.imageUrl, src.color;
      this.ts := ts;
    }

    function Source(): CardSource
      reads this
    {
      CardSource(authorName, title, titleLink, text, fields, footer, imageUrl, color)
    }
  }

  /** An event definition, with what the event parser provides: the record's subscription ARN,
      the ARN parser, the console URL builder and the event time. */
  class EventDef {
    const subscriptionArn: Option<string>
    const parseArn: string -> Arn
    const consoleUrl: string -> string
    const eventTime: TsValue

    constructor (subscriptionArn: Option<string>, parseArn: string -> Arn, consoleUrl: string -> string, eventTime: TsValue)
      ensures this.subscriptionArn == subscriptionArn && this.parseArn == parseArn
      ensures this.consoleUrl == consoleUrl && this.eventTime == eventTime
    {
      this.subscriptionArn := subscriptionArn;
      this.parseArn := parseArn;
      this.consoleUrl := consoleUrl;
      this.eventTime := eventTime;
    }

    /** `getLink(text, url)`: note the argument order is the reverse of MarkdownLink's. */
    function GetLink(text: string, url: string, hideAwsLinks: Option<string>): (l: MarkdownLink)
      ensures l.text == Some(text) && l.url == Some(url)
      ensures l.ToString() == Some(if LinksHidden(hideAwsLinks) then text else LinkMarkup(text, url))
    {
      NewMarkdownLink(Some(url), Some(text), hideAwsLinks)
    }

    /** The footer synthesised from a subscription ARN: it names the topic (shortened) and
        links to its console page and to the account's sign-in page, or names them without
        links when links are hidden. */
    function SnsFooter(arn: Arn, hideAwsLinks: Option<string>): (footer: string)
      ensures var topic := FirstSegment(arn.suffix);
              var caption := "SNS " + VisibleTopic(topic);
              footer ==
                if LinksHidden(hideAwsLinks) then "Received via " + caption + " | Sign-In"
                else "Received via " + LinkMarkup(caption, consoleUrl(TopicPath(arn, topic))) + " | " + LinkMarkup("Sign-In", SigninUrl(arn))
    {
      var topic := FirstSegment(arn.suffix);
      var snsLink := GetLink("SNS " + VisibleTopic(topic), consoleUrl(TopicPath(arn, topic)), hideAwsLinks);
      var signinLink := GetLink("Sign-In", SigninUrl(arn), hideAwsLinks);
      "Received via " + Interpolate(snsLink.ToString()) + " | " + Interpolate(signinLink.ToString())
    }

    /** The footer after defaulting: a truthy footer is kept; otherwise one is synthesised when
        the record has a subscription ARN, and without one the footer stays falsy. */
    function DefaultFooter(footer: Option<string>, hideAwsLinks: Option<string>): (r: Option<string>)
      ensures Truthy(footer) ==> r == footer
      ensures !Truthy(footer) && Truthy(subscriptionArn) ==> r == Some(SnsFooter(parseArn(subscriptionArn.value), hideAwsLinks))
      ensures !Truthy(footer) && !Truthy(subscriptionArn) ==> r == footer && !Truthy(r)
    {
      if !Truthy(footer) && Truthy(subscriptionArn) then Some(SnsFooter(parseArn(subscriptionArn.value), hideAwsLinks))
      else footer
    }

    /** The timestamp step of attachmentWithDefaults, in place. */
    method FillTimestamp(attachment: Attachment, now: int)
      modifies attachment
      ensures attachment.ts == DefaultTs(old(attachment.ts), eventTime, now)
      ensures attachment.Source() == old(attachment.Source())
    {
      if !TsTruthy(attachment.ts) {
        attachment.ts := if TsTruthy(eventTime) then eventTime else Date(now);
      }
      if attachment.ts.Date? {
        attachment.ts := Number(Teams.ToEpochTime(attachment.ts.ms));
      }
    }

    /** The footer step of attachmentWithDefaults, in place. */
    method FillFooter(attachment: Attachment, hideAwsLinks: Option<string>)
      modifies attachment
      ensures attachment.footer == DefaultFooter(old(attachment.footer), hideAwsLinks)
      ensures attachment.ts == old(attachment.ts)
      ensures attachment.Source() == old(attachment.Source()).(footer := attachment.footer)
    {
      if !Truthy(attachment.footer) {
        if Truthy(subscriptionArn) {
          attachment.footer := Some(SnsFooter(parseArn(subscriptionArn.value), hideAwsLinks));
        }
      }
    }

    /** `attachmentWithDefaults(attachment)`: fills in `ts` and `footer` in place, leaves every
        other property alone, and renders the updated attachment. */
    method AttachmentWithDefaults(attachment: Attachment, now: int, hideAwsLinks: Option<string>) returns (m: Message)
      modifies attachment
      ensures attachment.ts == DefaultTs(old(attachment.ts), eventTime, now)
      ensures attachment.footer == DefaultFooter(old(attachment.footer), hideAwsLinks)
      ensures attachment.Source() == old(attachment.Source()).(footer := attachment.footer)
      ensures IsRendering(attachment.Source(), hideAwsLinks, m)
    {
      FillTimestamp(attachment, now);
      FillFooter(attachment, hideAwsLinks);
      var card := new AdaptiveCard(attachment);
      m := card.Render(hideAwsLinks);
    }
  }

  /** With no footer and no subscription ARN, the rendered card has no footer block. */
  lemma NoArnNoFooterBlock(def: EventDef, src: CardSource, hideAwsLinks: Option<string>, m: Message)
    requires !Truthy(src.footer) && !Truthy(def.subscriptionArn)
    requires IsRendering(src.(footer := def.DefaultFooter(src.footer, hideAwsLinks)), hideAwsLinks, m)
    ensures forall i :: 0 <= i < |CardItems(m)| ==> !IsFooterBlock(CardItems(m)[i])
  {
    OptionalBlocks(src.(footer := def.DefaultFooter(src.footer, hideAwsLinks)), hideAwsLinks, m);
  }
}
