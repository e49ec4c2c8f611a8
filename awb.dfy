/**
 * The air-waybill builder. The PDF document is modelled by what the builder
 * does to it: it sets the current font, size and text colour, and draws text
 * at absolute positions (millimetres from the top-left corner). Each drawn
 * text is recorded with the font state in force when it was drawn. The page
 * size is supplied by the caller, as the PDF library reports it for the
 * chosen format.
 */
module Awb {
  import opened Wrappers
  import opened Text

  datatype PageFormat = A4 | A5

  datatype FontStyle = Normal | Bold

  datatype Align = Left | Center | Right

  /** One drawn text: what, where, how aligned, and the font state at that moment. */
  datatype TextCommand = TextCommand(
    text: string,
    x: real,
    y: real,
    align: Align,
    fontName: string,
    fontStyle: FontStyle,
    fontSize: nat,
    textColor: nat)

  /** The shipment record; every field may be absent. */
  datatype AwbDetails = AwbDetails(
    awbNumber: Option<string>,
    orderId: Option<string>,
    courier: Option<string>,
    date: Option<string>,
    senderName: Option<string>,
    senderAddress: Option<string>,
    senderPhone: Option<string>,
    receiverName: Option<string>,
    receiverAddress: Option<string>,
    receiverPhone: Option<string>,
    weight: Option<string>,
    dimensions: Option<string>,
    contents: Option<string>,
    pdfSize: Option<string>)

  const NoDetails := AwbDetails(None, None, None, None, None, None, None, None, None, None, None, None, None, None)

  /** The page format: A5 only when asked for by name, A4 otherwise. */
  function PageFormatOf(pdfSize: Option<string>): (f: PageFormat)
    ensures f == A5 <==> pdfSize == Some("a5")
  {
    if pdfSize == Some("a5") then A5 else A4
  }

  /** The four page margins are all 15 mm. */
  const Margin: real := 15.0

  const Font := "helvetica"

  const Title := "AIR WAYBILL (AWB)"

  const FooterText := "This is a system-generated AWB bill."

  /** A document being drawn: its page, the current font state and everything drawn so far. */
  class PdfDoc {
    const format: PageFormat
    const pageWidth: real
    const pageHeight: real
    var fontName: string
    var fontStyle: FontStyle
    var fontSize: nat
    var textColor: nat
    var commands: seq<TextCommand>

    /** A blank page in the library's default state: 16 pt helvetica, normal, black. */
    constructor (format: PageFormat, pageWidth: real, pageHeight: real)
      ensures this.format == format && this.pageWidth == pageWidth && this.pageHeight == pageHeight
      ensures fontName == Font && fontStyle == Normal && fontSize == 16 && textColor == 0
      ensures commands == []
    {
      this.format := format;
      this.pageWidth := pageWidth;
      this.pageHeight := pageHeight;
      fontName := Font;
      fontStyle := Normal;
      fontSize := 16;
      textColor := 0;
      commands := [];
    }

    method SetFontSize(size: nat)
      modifies this
      ensures fontSize == size
      ensures fontName == old(fontName) && fontStyle == old(fontStyle) && textColor == old(textColor)
      ensures commands == old(commands)
    {
      fontSize := size;
    }

    method SetFont(name: string, style: FontStyle)
      modifies this
      ensures fontName == name && fontStyle == style
      ensures fontSize == old(fontSize) && textColor == old(textColor)
      ensures commands == old(commands)
    {
      fontName := name;
      fontStyle := style;
    }

    /** Sets the text colour to the grey level `gray` (0 is black). */
    method SetTextColor(gray: nat)
      modifies this
      ensures textColor == gray
      ensures fontName == old(fontName) && fontStyle == old(fontStyle) && fontSize == old(fontSize)
      ensures commands == old(commands)
    {
      textColor := gray;
    }

    /** Draws `s` at (x, y), appending it to the page with the current font state. */
    method Text(s: string, x: real, y: real, align: Align)
      modifies this
      ensures commands == old(commands) + [TextCommand(s, x, y, align, fontName, fontStyle, fontSize, textColor)]
      ensures fontName == old(fontName) && fontStyle == old(fontStyle) && fontSize == old(fontSize)
      ensures textColor == old(textColor)
    {
      commands := commands + [TextCommand(s, x, y, align, fontName, fontStyle, fontSize, textColor)];
    }
  }

  // ---------------------------------------------------------------------------
  // The layout, in absolute coordinates

  /** A normal-weight line of the body font (11 pt, black). */
  function BodyLine(s: string, x: real, y: real, align: Align): TextCommand {
    TextCommand(s, x, y, align, Font, Normal, 11, 0)
  }

  /** A bold block heading at the left margin. */
  function Heading(s: string, y: real): TextCommand {
    TextCommand(s, Margin, y, Left, Font, Bold, 11, 0)
  }

  /** The title and the two two-column header rows. */
  function HeaderLayout(d: AwbDetails, pageWidth: real, today: string): seq<TextCommand> {
    var right := pageWidth - Margin;
    [ TextCommand(Title, pageWidth / 2.0, 15.0, Center, Font, Bold, 18, 0),
      BodyLine("AWB Number: " + OrDefault(d.awbNumber, "N/A"), Margin, 27.0, Left),
      BodyLine("Order ID: " + OrDefault(d.orderId, "N/A"), right, 27.0, Right),
      BodyLine("Courier: " + OrDefault(d.courier, "N/A"), Margin, 35.0, Left),
      BodyLine("Date: " + OrDefault(d.date, today), right, 35.0, Right) ]
  }

  /** A details block: its heading at `y`, then three lines 6, 12 and 18 mm below. */
  function BlockLayout(heading: string, l1: string, l2: string, l3: string, y: real): seq<TextCommand> {
    [ Heading(heading, y),
      BodyLine(l1, Margin, y + 6.0, Left),
      BodyLine(l2, Margin, y + 12.0, Left),
      BodyLine(l3, Margin, y + 18.0, Left) ]
  }

  function SenderLayout(d: AwbDetails): seq<TextCommand> {
    BlockLayout("Sender Details:", "Name: " + OrDefault(d.senderName, ""),
      "Address: " + OrDefault(d.senderAddress, ""), "Phone: " + OrDefault(d.senderPhone, ""), 43.0)
  }

  function ReceiverLayout(d: AwbDetails): seq<TextCommand> {
    BlockLayout("Receiver Details:", "Name: " + OrDefault(d.receiverName, ""),
      "Address: " + OrDefault(d.receiverAddress, ""), "Phone: " + OrDefault(d.receiverPhone, ""), 67.0)
  }

  function ShipmentLayout(d: AwbDetails): seq<TextCommand> {
    BlockLayout("Shipment Details:", "Weight: " + OrDefault(d.weight, "") + " kg",
      "Dimensions: " + OrDefault(d.dimensions, ""), "Contents: " + OrDefault(d.contents, ""), 91.0)
  }

  function FooterLine(pageWidth: real, pageHeight: real): TextCommand {
    TextCommand(FooterText, pageWidth / 2.0, pageHeight - 10.0, Center, Font, Normal, 9, 120)
  }

  /** Everything the bill draws, in order, with each line at its final position. */
  function AwbLayout(d: AwbDetails, pageWidth: real, pageHeight: real, today: string): seq<TextCommand> {
    HeaderLayout(d, pageWidth, today) + SenderLayout(d) + ReceiverLayout(d) + ShipmentLayout(d)
      + [FooterLine(pageWidth, pageHeight)]
  }

  // ---------------------------------------------------------------------------
  // The builder

  /**
   * `generateAwbBill`: draws the bill with a cursor that starts at the top
   * margin and moves down by fixed steps. `today` is the date text used when
   * the record has none; `finalY` is where the cursor ends.
   */
  method GenerateAwbBill(d: AwbDetails, pageWidth: real, pageHeight: real, today: string)
    returns (doc: PdfDoc, ghost finalY: real)
    ensures fresh(doc)
    ensures doc.format == PageFormatOf(d.pdfSize)
    ensures doc.pageWidth == pageWidth && doc.pageHeight == pageHeight
    ensures doc.commands == AwbLayout(d, pageWidth, pageHeight, today)
    ensures doc.fontName == Font && doc.fontStyle == Normal && doc.fontSize == 9 && doc.textColor == 120
    ensures finalY == 115.0
  {
    doc := new PdfDoc(PageFormatOf(d.pdfSize), pageWidth, pageHeight);
    var y := Margin;

    // title and header rows
    y := DrawHeader(doc, d, today, y);
    assert doc.commands == HeaderLayout(d, pageWidth, today);
    ghost var drawn := doc.commands;

    // sender, receiver and shipment details
    y := DrawBlock(doc, "Sender Details:", "Name: " + OrDefault(d.senderName, ""),
      "Address: " + OrDefault(d.senderAddress, ""), "Phone: " + OrDefault(d.senderPhone, ""), y);
    assert doc.commands == drawn + SenderLayout(d);
    drawn := doc.commands;
    y := DrawBlock(doc, "Receiver Details:", "Name: " + OrDefault(d.receiverName, ""),
      "Address: " + OrDefault(d.receiverAddress, ""), "Phone: " + OrDefault(d.receiverPhone, ""), y);
    assert doc.commands == drawn + ReceiverLayout(d);
    drawn := doc.commands;
    y := DrawBlock(doc, "Shipment Details:", "Weight: " + OrDefault(d.weight, "") + " kg",
      "Dimensions: " + OrDefault(d.dimensions, ""), "Contents: " + OrDefault(d.contents, ""), y);
    assert doc.commands == drawn + ShipmentLayout(d);

    // footer
    doc.SetFontSize(9);
    doc.SetTextColor(120);
    doc.Text(FooterText, pageWidth / 2.0, pageHeight - 10.0, Center);
    finalY := y;
  }

  /**
   * The title in 18 pt bold centred at the cursor, then, in 11 pt normal,
   * the two header rows 12 and 20 mm below it, each with a left field at the
   * left margin and a right-aligned field at the right margin; the cursor
   * ends 28 mm below where it began.
   */
  method DrawHeader(doc: PdfDoc, d: AwbDetails, today: string, y: real) returns (y': real)
    requires doc.commands == [] && doc.fontName == Font && doc.textColor == 0 && y == Margin
    modifies doc
    ensures doc.commands == HeaderLayout(d, doc.pageWidth, today)
    ensures doc.fontName == Font && doc.fontStyle == Normal && doc.fontSize == 11 && doc.textColor == 0
    ensures y' == y + 28.0
  {
    y' := y;
    var pageWidth := doc.pageWidth;
    doc.SetFontSize(18);
    doc.SetFont(Font, Bold);
    doc.Text(Title, pageWidth / 2.0, y', Center);
    y' := y' + 12.0;
    doc.SetFontSize(11);
    doc.SetFont(Font, Normal);
    doc.Text("AWB Number: " + OrDefault(d.awbNumber, "N/A"), Margin, y', Left);
    doc.Text("Order ID: " + OrDefault(d.orderId, "N/A"), pageWidth - Margin, y', Right);
    y' := y' + 8.0;
    doc.Text("Courier: " + OrDefault(d.courier, "N/A"), Margin, y', Left);
    doc.Text("Date: " + OrDefault(d.date, today), pageWidth - Margin, y', Right);
    y' := y' + 8.0;
  }

  /**
   * One details block as the builder draws it: the heading in bold at the
   * cursor, then back to normal weight, the cursor moved down 6 mm and three
   * lines 6 mm apart from there; the cursor ends 24 mm below where it began.
   */
  method DrawBlock(doc: PdfDoc, heading: string, l1: string, l2: string, l3: string, y: real) returns (y': real)
    requires doc.fontName == Font && doc.fontSize == 11 && doc.textColor == 0
    modifies doc
    ensures doc.commands == old(doc.commands) + BlockLayout(heading, l1, l2, l3, y)
    ensures doc.fontName == Font && doc.fontStyle == Normal && doc.fontSize == 11 && doc.textColor == 0
    ensures y' == y + 24.0
  {
    y' := y;
    doc.SetFont(Font, Bold);
    doc.Text(heading, Margin, y', Left);
    doc.SetFont(Font, Normal);
    y' := y' + 6.0;
    doc.Text(l1, Margin, y', Left);
    doc.Text(l2, Margin, y' + 6.0, Left);
    doc.Text(l3, Margin, y' + 12.0, Left);
    y' := y' + 18.0;
  }

  /** The file name `downloadAwbBill` saves under. */
  function AwbFilename(d: AwbDetails): string {
    "AWB_" + OrDefault(d.awbNumber, OrDefault(d.orderId, "bill")) + ".pdf"
  }

  // ---------------------------------------------------------------------------
  // Properties of the layout

  /** Every drawn line is at or below the one drawn before it. */
  predicate NonDecreasingY(cs: seq<TextCommand>) {
    forall i, j :: 0 <= i < j < |cs| ==> cs[i].y <= cs[j].y
  }

  predicate StepsDown(cs: seq<TextCommand>) {
    forall i :: 0 < i < |cs| ==> cs[i - 1].y <= cs[i].y
  }

  lemma {:induction false} StepsDownNonDecreasing(cs: seq<TextCommand>)
    requires StepsDown(cs)
    ensures NonDecreasingY(cs)
    decreases |cs|
  {
    if |cs| > 1 {
      var init := cs[..|cs| - 1];
      assert StepsDown(init) by {
        forall i | 0 < i < |init| ensures init[i - 1].y <= init[i].y {
          assert init[i - 1] == cs[i - 1] && init[i] == cs[i];
        }
      }
      StepsDownNonDecreasing(init);
      forall i, j | 0 <= i < j < |cs| ensures cs[i].y <= cs[j].y {
        if j < |cs| - 1 {
          assert init[i] == cs[i] && init[j] == cs[j];
        } else if i < j - 1 {
          assert init[i] == cs[i] && init[j - 1] == cs[j - 1];
        }
      }
    }
  }

  /** A details block at index k: a bold heading at (15, y), then three normal lines 6 mm apart. */
  predicate BlockAt(cs: seq<TextCommand>, k: nat, y: real) {
    && k + 4 <= |cs|
    && cs[k].fontStyle == Bold && cs[k].x == Margin && cs[k].y == y
    && cs[k + 1].fontStyle == Normal && cs[k + 1].x == Margin && cs[k + 1].y == y + 6.0
    && cs[k + 2].fontStyle == Normal && cs[k + 2].x == Margin && cs[k + 2].y == y + 12.0
    && cs[k + 3].fontStyle == Normal && cs[k + 3].x == Margin && cs[k + 3].y == y + 18.0
  }

  lemma LayoutIndex(d: AwbDetails, pageWidth: real, pageHeight: real, today: string)
    ensures var cs := AwbLayout(d, pageWidth, pageHeight, today);
            && |cs| == 18
            && cs[..5] == HeaderLayout(d, pageWidth, today)
            && cs[5..9] == SenderLayout(d)
            && cs[9..13] == ReceiverLayout(d)
            && cs[13..17] == ShipmentLayout(d)
            && cs[17] == FooterLine(pageWidth, pageHeight)
  {
    var cs := AwbLayout(d, pageWidth, pageHeight, today);
    var h, a, b, c := HeaderLayout(d, pageWidth, today), SenderLayout(d), ReceiverLayout(d), ShipmentLayout(d);
    assert cs == h + a + b + c + [FooterLine(pageWidth, pageHeight)];
    assert cs[..5] == h;
    assert cs[5..9] == a;
    assert cs[9..13] == b;
    assert cs[13..17] == c;
  }

  /**
   * The cursor only moves down: the title at 15 mm, the header rows at 27
   * and 35, the block headings at 43, 67 and 91, each block's lines 6 mm
   * apart, the last at 109; the footer is pinned 10 mm above the bottom edge.
   */
  lemma AwbCursorSpec(d: AwbDetails, pageWidth: real, pageHeight: real, today: string)
    ensures var cs := AwbLayout(d, pageWidth, pageHeight, today);
            && |cs| == 18
            && NonDecreasingY(cs[..17])
            && cs[0].y == 15.0 && cs[1].y == cs[2].y == 27.0 && cs[3].y == cs[4].y == 35.0
            && BlockAt(cs, 5, 43.0) && BlockAt(cs, 9, 67.0) && BlockAt(cs, 13, 91.0)
            && cs[17].y == pageHeight - 10.0
  {
    var cs := AwbLayout(d, pageWidth, pageHeight, today);
    LayoutIndex(d, pageWidth, pageHeight, today);
    var body := cs[..17];
    assert body[0].y == 15.0 && body[1].y == 27.0 && body[2].y == 27.0 && body[3].y == 35.0 && body[4].y == 35.0;
    assert body[5].y == 43.0 && body[6].y == 49.0 && body[7].y == 55.0 && body[8].y == 61.0;
    assert body[9].y == 67.0 && body[10].y == 73.0 && body[11].y == 79.0 && body[12].y == 85.0;
    assert body[13].y == 91.0 && body[14].y == 97.0 && body[15].y == 103.0 && body[16].y == 109.0;
    StepsDownNonDecreasing(body);
  }

  /**
   * Horizontal placement: the left column at the left margin, the second
   * column right-aligned at the right margin, the title and the footer
   * centred on the page.
   */
  lemma AwbPlacementSpec(d: AwbDetails, pageWidth: real, pageHeight: real, today: string)
    ensures var cs := AwbLayout(d, pageWidth, pageHeight, today);
            && |cs| == 18
            && cs[0].x == pageWidth / 2.0 && cs[0].align == Center
            && cs[17].x == pageWidth / 2.0 && cs[17].align == Center
            && cs[2].x == pageWidth - Margin && cs[2].align == Right
            && cs[4].x == pageWidth - Margin && cs[4].align == Right
            && forall i :: 0 < i < 17 && i != 2 && i != 4 ==> cs[i].x == Margin && cs[i].align == Left
  {
    LayoutIndex(d, pageWidth, pageHeight, today);
  }

  /** Bold only for the title and the three block headings; helvetica throughout. */
  lemma AwbBoldSpec(d: AwbDetails, pageWidth: real, pageHeight: real, today: string)
    ensures var cs := AwbLayout(d, pageWidth, pageHeight, today);
            && |cs| == 18
            && (forall i :: 0 <= i < 18 ==> cs[i].fontName == Font)
            && (forall i :: 0 <= i < 18 ==> (cs[i].fontStyle == Bold <==> i == 0 || i == 5 || i == 9 || i == 13))
  {
    LayoutIndex(d, pageWidth, pageHeight, today);
  }

  /** 18 pt for the title and 11 pt for the body, in black; the footer in 9 pt grey 120. */
  lemma AwbSizeAndColourSpec(d: AwbDetails, pageWidth: real, pageHeight: real, today: string)
    ensures var cs := AwbLayout(d, pageWidth, pageHeight, today);
            && |cs| == 18
            && (forall i :: 0 <= i < 17 ==> cs[i].textColor == 0)
            && cs[0].fontSize == 18
            && (forall i :: 0 < i < 17 ==> cs[i].fontSize == 11)
            && cs[17].text == FooterText && cs[17].fontSize == 9 && cs[17].textColor == 120
  {
    LayoutIndex(d, pageWidth, pageHeight, today);
  }

  /** An empty record renders every field as its default. */
  lemma AwbDefaultsSpec(pageWidth: real, pageHeight: real, today: string)
    ensures var cs := AwbLayout(NoDetails, pageWidth, pageHeight, today);
            && |cs| == 18
            && cs[1].text == "AWB Number: N/A" && cs[2].text == "Order ID: N/A"
            && cs[3].text == "Courier: N/A" && cs[4].text == "Date: " + today
            && cs[6].text == "Name: " && cs[7].text == "Address: " && cs[8].text == "Phone: "
            && cs[10].text == "Name: " && cs[11].text == "Address: " && cs[12].text == "Phone: "
            && cs[14].text == "Weight:  kg" && cs[15].text == "Dimensions: " && cs[16].text == "Contents: "
  {
    LayoutIndex(NoDetails, pageWidth, pageHeight, today);
  }

  /**
   * Line `t` shows `caption` followed by the field when it is present and
   * non-empty, and followed by `dflt` when it is absent or empty.
   */
  predicate ShowsField(t: string, caption: string, f: Option<string>, dflt: string) {
    && (Truthy(f) ==> t == caption + f.value)
    && (!Truthy(f) ==> t == caption + dflt)
  }

  /** The header rows: AWB number, order id and courier default to N/A, the date to today's. */
  lemma AwbHeaderFieldsSpec(d: AwbDetails, pageWidth: real, pageHeight: real, today: string)
    ensures var cs := AwbLayout(d, pageWidth, pageHeight, today);
            && |cs| == 18
            && ShowsField(cs[1].text, "AWB Number: ", d.awbNumber, "N/A")
            && ShowsField(cs[2].text, "Order ID: ", d.orderId, "N/A")
            && ShowsField(cs[3].text, "Courier: ", d.courier, "N/A")
            && ShowsField(cs[4].text, "Date: ", d.date, today)
  {
    LayoutIndex(d, pageWidth, pageHeight, today);
  }

  /** The sender and receiver blocks: name, address and phone, each blank when absent or empty. */
  lemma AwbPartyFieldsSpec(d: AwbDetails, pageWidth: real, pageHeight: real, today: string)
    ensures var cs := AwbLayout(d, pageWidth, pageHeight, today);
            && |cs| == 18
            && ShowsField(cs[6].text, "Name: ", d.senderName, "")
            && ShowsField(cs[7].text, "Address: ", d.senderAddress, "")
            && ShowsField(cs[8].text, "Phone: ", d.senderPhone, "")
            && ShowsField(cs[10].text, "Name: ", d.receiverName, "")
            && ShowsField(cs[11].text, "Address: ", d.receiverAddress, "")
            && ShowsField(cs[12].text, "Phone: ", d.receiverPhone, "")
  {
    LayoutIndex(d, pageWidth, pageHeight, today);
  }

  /** The shipment block: weight in kilograms, dimensions and contents, each blank when absent or empty. */
  lemma AwbShipmentFieldsSpec(d: AwbDetails, pageWidth: real, pageHeight: real, today: string)
    ensures var cs := AwbLayout(d, pageWidth, pageHeight, today);
            && |cs| == 18
            && (Truthy(d.weight) ==> cs[14].text == "Weight: " + d.weight.value + " kg")
            && (!Truthy(d.weight) ==> cs[14].text == "Weight:  kg")
            && cs[14].text[|cs[14].text| - 3..] == " kg"
            && ShowsField(cs[15].text, "Dimensions: ", d.dimensions, "")
            && ShowsField(cs[16].text, "Contents: ", d.contents, "")
  {
    LayoutIndex(d, pageWidth, pageHeight, today);
  }

  /** The download name falls back from the AWB number to the order id to "bill". */
  lemma AwbFilenameSpec(d: AwbDetails)
    ensures Truthy(d.awbNumber) ==> AwbFilename(d) == "AWB_" + d.awbNumber.value + ".pdf"
    ensures !Truthy(d.awbNumber) && Truthy(d.orderId) ==> AwbFilename(d) == "AWB_" + d.orderId.value + ".pdf"
    ensures !Truthy(d.awbNumber) && !Truthy(d.orderId) ==> AwbFilename(d) == "AWB_bill.pdf"
  {
  }
}
