/** The layout of one certificate (main.py, create_certificate): which texts,
    lines and signature images are drawn on the transparent layer, where, and
    in which order. Text measurement is the parameter `m`; whether an uploaded
    signature image can be opened and resized is the parameter `d`. */
module Layout {
  import opened Wrappers
  import opened Wording

  /** The font roles of the template. Each role is loaded at its own point
      size; the sizes matter only through the measurement `Measure`. */
  datatype Font = TitleFont | NameFont | HeaderFont | DetailsFont | SignFont | PrizeFont | SpeakerFont

  /** Width and height of a text's bounding box, or of an image, in pixels. */
  datatype Extent = Extent(w: nat, h: nat)

  /** Text measurement: the bounding box of a text in a font. */
  type Measure = (string, Font) -> Extent

  /** The contents of an uploaded signature file. */
  type Upload = seq<bv8>

  /** Opening an uploaded signature: the pixel size of the image, or None when
      it cannot be opened or converted. */
  type Decoder = Upload -> Option<Extent>

  /** The size of the template image. */
  datatype Canvas = Canvas(w: nat, h: nat)

  datatype Speaker = Speaker(name: string, designation: string)

  /** One configured signatory; an empty name or post is a missing one. */
  datatype Signer = Signer(name: string, post: string, signature: Option<Upload>)

  /** The arguments of one create_certificate call. An empty event name and a
      missing date are the falsy values the source tests for. */
  datatype Request = Request(
    name: string,
    certType: string,
    rank: Option<Rank>,
    eventName: string,
    eventDate: Option<string>,
    speaker: Option<Speaker>,
    signers: seq<Signer>)

  /** One drawing call on the transparent layer. Main texts sit at real
      coordinates (true division); lines of the signature blocks and pasted
      images at whole pixels. */
  datatype DrawOp =
    | Text(x: real, y: real, text: string, font: Font)
    | Line(x1: real, y1: real, x2: real, y2: real, width: nat)
    | Paste(px: int, py: int, pw: nat, ph: nat)

  /** A text drawn horizontally centred on the canvas at height `y`. */
  function CentredText(c: Canvas, text: string, font: Font, y: real, m: Measure): (op: DrawOp)
    ensures op.Text? && op.text == text && op.font == font && op.y == y
    ensures op.x + (m(text, font).w as real) / 2.0 == (c.w as real) / 2.0
  {
    Text((c.w as real - m(text, font).w as real) / 2.0, y, text, font)
  }

  predicate IsCentred(c: Canvas, op: DrawOp, m: Measure)
    requires op.Text?
  {
    op.x + (m(op.text, op.font).w as real) / 2.0 == (c.w as real) / 2.0
  }

  // ---------------------------------------------------------------------------
  // The main texts

  datatype Details = Details(event: DrawOp, date: DrawOp, speaker: Option<DrawOp>)

  /** The main texts of a certificate, block by block; a block that is not
      drawn is None. */
  datatype MainLayout = MainLayout(
    title: DrawOp,
    rank: Option<DrawOp>,
    header: DrawOp,
    name: DrawOp,
    underline: DrawOp,
    details: Option<Details>)

  function HeightOf(text: string, font: Font, m: Measure): real
  {
    m(text, font).h as real
  }

  /** The event, date and speaker lines, chained below the underline at `lineY`. */
  function LayoutDetails(c: Canvas, req: Request, date: string, lineY: real, m: Measure): Details
  {
    var event := CentredText(c, EventText(req.certType, req.eventName), DetailsFont, lineY + 50.0, m);
    var dateLine := CentredText(c, DateText(date), DetailsFont, event.y + 70.0, m);
    var speaker :=
      if req.speaker.Some? && req.speaker.value.name != "" then
        Some(CentredText(c, SpeakerText(req.speaker.value.name, req.speaker.value.designation),
                         SpeakerFont, dateLine.y + 70.0, m))
      else None;
    Details(event, dateLine, speaker)
  }

  /** Positions of the title, rank, header, name, underline and event blocks. */
  function LayoutText(c: Canvas, req: Request, m: Measure): MainLayout
  {
    var title := CentredText(c, TitleText(req.certType), TitleFont, c.h as real / 3.0, m);
    var rank :=
      if req.rank.Some? then
        Some(CentredText(c, RankText(req.rank.value), PrizeFont,
                         title.y + HeightOf(title.text, TitleFont, m) + 90.0, m))
      else None;
    var header := CentredText(c, HeaderText, HeaderFont, c.h as real / 2.0 - 30.0, m);
    var name := CentredText(c, req.name, NameFont, c.h as real / 2.0 + 80.0, m);
    var lineY := name.y + HeightOf(req.name, NameFont, m) + 30.0;
    var underline := Line(c.w as real / 4.0, lineY, 3.0 * c.w as real / 4.0, lineY, 2);
    var details :=
      if req.eventName != "" && req.eventDate.Some? then
        Some(LayoutDetails(c, req, req.eventDate.value, lineY, m))
      else None;
    MainLayout(title, rank, header, name, underline, details)
  }

  function OptionOps(o: Option<DrawOp>): seq<DrawOp>
  {
    if o.Some? then [o.value] else []
  }

  function DetailOps(o: Option<Details>): seq<DrawOp>
  {
    if o.Some? then [o.value.event, o.value.date] + OptionOps(o.value.speaker) else []
  }

  /** The main texts in drawing order. */
  function MainOps(l: MainLayout): seq<DrawOp>
  {
    [l.title] + OptionOps(l.rank) + [l.header, l.name, l.underline] + DetailOps(l.details)
  }

  /** Every main text is horizontally centred on the canvas. */
  lemma MainTextCentred(c: Canvas, req: Request, m: Measure)
    ensures forall op :: op in MainOps(LayoutText(c, req, m)) && op.Text? ==> IsCentred(c, op, m)
  {
  }

  /** Which optional blocks are drawn: the rank line exactly when a rank is
      given, the event and date lines exactly when both an event name and a
      date are given, the speaker line exactly when, in addition, a speaker
      with a non-empty name is given. */
  lemma OptionalBlocksPresence(c: Canvas, req: Request, m: Measure)
    ensures var l := LayoutText(c, req, m);
      && (l.rank.Some? <==> req.rank.Some?)
      && (l.details.Some? <==> req.eventName != "" && req.eventDate.Some?)
      && (l.details.Some? ==>
            (l.details.value.speaker.Some? <==> req.speaker.Some? && req.speaker.value.name != ""))
  {
  }

  /** The title, header, name and underline sit at fixed anchors: whether a
      rank, an event or a speaker is present moves none of them. */
  lemma AnchorsIgnoreOptionalBlocks(c: Canvas, r1: Request, r2: Request, m: Measure)
    requires r1.name == r2.name && r1.certType == r2.certType
    ensures var l1, l2 := LayoutText(c, r1, m), LayoutText(c, r2, m);
      && l1.title == l2.title && l1.header == l2.header
      && l1.name == l2.name && l1.underline == l2.underline
    ensures var l := LayoutText(c, r1, m);
      && l.title.y == c.h as real / 3.0
      && l.header.y == c.h as real / 2.0 - 30.0
      && l.name.y == c.h as real / 2.0 + 80.0
  {
  }

  /** The gaps between consecutive blocks: the rank line 90 below the bottom
      of the title, the underline 30 below the bottom of the name and spanning
      the middle half of the canvas, the event line 50 below the underline,
      the date and the speaker lines each 70 below the top of the line above. */
  lemma VerticalGaps(c: Canvas, req: Request, m: Measure)
    ensures var l := LayoutText(c, req, m);
      && (l.rank.Some? ==> l.rank.value.y == l.title.y + HeightOf(l.title.text, TitleFont, m) + 90.0)
      && l.underline.y1 == l.underline.y2 == l.name.y + HeightOf(req.name, NameFont, m) + 30.0
      && l.underline.x1 == c.w as real / 4.0 && l.underline.x2 == 3.0 * c.w as real / 4.0
      && (l.details.Some? ==>
            && l.details.value.event.y == l.underline.y1 + 50.0
            && l.details.value.date.y == l.details.value.event.y + 70.0
            && (l.details.value.speaker.Some? ==>
                  l.details.value.speaker.value.y == l.details.value.date.y + 70.0))
  {
  }

  /** Below the name the blocks run strictly downwards: name, underline,
      event, date, speaker. */
  lemma ChainBelowNameDescends(c: Canvas, req: Request, m: Measure)
    ensures var l := LayoutText(c, req, m);
      && l.name.y < l.underline.y1
      && (l.details.Some? ==>
            && l.underline.y1 < l.details.value.event.y < l.details.value.date.y
            && (l.details.value.speaker.Some? ==> l.details.value.date.y < l.details.value.speaker.value.y))
  {
  }

  /** Dropping the rank removes the rank line and nothing else. */
  lemma OmittingRankDropsOnlyRankLine(c: Canvas, req: Request, m: Measure)
    requires req.rank.Some?
    ensures var with, without := MainOps(LayoutText(c, req, m)), MainOps(LayoutText(c, req.(rank := None), m));
      |with| == |without| + 1 && with[0] == without[0] && with[2..] == without[1..]
  {
    var l1, l2 := LayoutText(c, req, m), LayoutText(c, req.(rank := None), m);
    assert l1.title == l2.title && l1.header == l2.header && l1.name == l2.name;
    assert l1.underline == l2.underline && l1.details == l2.details && l2.rank == None;
    var rest := [l1.header, l1.name, l1.underline] + DetailOps(l1.details);
    assert MainOps(l1) == [l1.title, l1.rank.value] + rest;
    assert MainOps(l2) == [l1.title] + rest;
  }

  /** Dropping the speaker removes the speaker line, the last main text, and
      nothing else. */
  lemma OmittingSpeakerDropsOnlySpeakerLine(c: Canvas, req: Request, m: Measure)
    requires req.eventName != "" && req.eventDate.Some?
    requires req.speaker.Some? && req.speaker.value.name != ""
    ensures var with, without := MainOps(LayoutText(c, req, m)), MainOps(LayoutText(c, req.(speaker := None), m));
      |with| == |without| + 1 && with[..|without|] == without && with[|without|].font == SpeakerFont
  {
    var l1, l2 := LayoutText(c, req, m), LayoutText(c, req.(speaker := None), m);
    assert l1.title == l2.title && l1.rank == l2.rank && l1.header == l2.header;
    assert l1.name == l2.name && l1.underline == l2.underline;
    var d1, d2 := l1.details.value, l2.details.value;
    assert d1.event == d2.event && d1.date == d2.date && d2.speaker == None;
    var front := [l1.title] + OptionOps(l1.rank) + [l1.header, l1.name, l1.underline] + [d1.event, d1.date];
    assert MainOps(l1) == front + [d1.speaker.value];
    assert MainOps(l2) == front;
  }

  /** The fixed anchors do not keep the rank line clear of the header: on a
      900-pixel-high canvas with 100-pixel-high texts the rank line starts
      below the top of the header and overlaps the name. */
  lemma RankLineCanOverlapHeader()
    ensures var m: Measure := (t, f) => Extent(100, 100);
      var l := LayoutText(Canvas(1000, 900), Request("A", "Excellence", Some(First), "", None, None, []), m);
      && l.rank.Some?
      && l.rank.value.y > l.header.y
      && l.rank.value.y + 100.0 > l.name.y
  {
  }

  /** The detail lines are spaced by a fixed 70 from the top of the line
      above, whatever its height: with 100-pixel-high texts the date line
      starts inside the event line and the speaker line inside the date line. */
  lemma DetailLinesCanOverlap()
    ensures var m: Measure := (t, f) => Extent(100, 100);
      var l := LayoutText(Canvas(1000, 900), Request("A", "Participation", None, "Hack", Some("May 01, 2024"),
                                                     Some(Speaker("B", "")), []), m);
      && l.details.Some? && l.details.value.speaker.Some?
      && l.details.value.event.y < l.details.value.date.y < l.details.value.event.y + 100.0
      && l.details.value.date.y < l.details.value.speaker.value.y < l.details.value.date.y + 100.0
  {
  }

  // ---------------------------------------------------------------------------
  // The signature blocks

  /** The width every signature image is resized to. */
  const SignatureWidth: nat := 200

  /** The height of a resized signature: the original height scaled by
      200/width and truncated, so the aspect ratio is kept within one pixel. */
  function ResizedHeight(w: nat, h: nat): (r: nat)
    requires w > 0
    ensures r * w <= SignatureWidth * h < (r + 1) * w
  {
    (SignatureWidth * h) / w
  }

  /** A signer contributes a block only with a signature, a name and a post. */
  predicate Complete(s: Signer)
  {
    s.signature.Some? && s.name != "" && s.post != ""
  }

  /** Whether opening, resizing and pasting the signature image all succeed:
      the image opens, has a non-zero width (the scale factor divides by it)
      and its resized height is at least one pixel (the resize refuses zero). */
  predicate Pastes(decoded: Option<Extent>)
  {
    decoded.Some? && decoded.value.w > 0 && ResizedHeight(decoded.value.w, decoded.value.h) > 0
  }

  /** The first drawing of signer `i`'s block: the resized signature pasted
      with its left edge at `spacing * i - 100`, or else a placeholder line
      50 below the top of the block. */
  function SignatureImage(i: nat, spacing: int, sigY: int, upload: Upload, d: Decoder): DrawOp
  {
    var decoded := d(upload);
    if Pastes(decoded) then
      Paste(spacing * i - SignatureWidth / 2, sigY, SignatureWidth, ResizedHeight(decoded.value.w, decoded.value.h))
    else
      var x := spacing * i - 100;
      Line(x as real, (sigY + 50) as real, (x + 200) as real, (sigY + 50) as real, 1)
  }

  /** The block of signer `i` (1-indexed): image or placeholder, the signature
      line 100 below the top, then name and post centred on the line, 20 and
      60 below it. A signer missing a field draws nothing. */
  function SignerBlock(s: Signer, i: nat, spacing: int, sigY: int, m: Measure, d: Decoder): seq<DrawOp>
  {
    if !Complete(s) then []
    else
      var x := spacing * i - 100;
      var lineY := sigY + 100;
      var nameX := x + (200 - m(s.name, SignFont).w) / 2;
      var postX := x + (200 - m(s.post, SignFont).w) / 2;
      [ SignatureImage(i, spacing, sigY, s.signature.value, d),
        Line(x as real, lineY as real, (x + 200) as real, lineY as real, 1),
        Text(nameX as real, (lineY + 20) as real, s.name, SignFont),
        Text(postX as real, (lineY + 60) as real, s.post, SignFont) ]
  }

  /** The blocks of `signers`, numbered from 1 in order. */
  function SignerBlocks(signers: seq<Signer>, spacing: int, sigY: int, m: Measure, d: Decoder): seq<DrawOp>
  {
    if signers == [] then []
    else
      SignerBlocks(signers[..|signers| - 1], spacing, sigY, m, d)
        + SignerBlock(signers[|signers| - 1], |signers|, spacing, sigY, m, d)
  }

  /** The horizontal distance between the centres of neighbouring signers. */
  function Spacing(c: Canvas, count: nat): int
  {
    c.w / (count + 1)
  }

  /** All signature drawings: nothing without signers, otherwise the blocks
      spaced by the full number of configured signers, 450 above the bottom. */
  function SignatureOps(c: Canvas, signers: seq<Signer>, m: Measure, d: Decoder): seq<DrawOp>
  {
    if signers == [] then []
    else SignerBlocks(signers, Spacing(c, |signers|), c.h - 450, m, d)
  }

  /** Every drawing of one certificate, in the order the source draws them. */
  function CertificateOps(c: Canvas, req: Request, m: Measure, d: Decoder): seq<DrawOp>
  {
    MainOps(LayoutText(c, req, m)) + SignatureOps(c, req.signers, m, d)
  }

  /** The centres of the signer slots lie inside the canvas, at least one
      spacing away from either edge, and neighbouring slots are one spacing
      apart, however many signers are skipped. */
  lemma SlotCentresInsideCanvas(c: Canvas, count: nat, i: nat)
    requires 1 <= i <= count
    ensures var spacing := Spacing(c, count);
      && 0 <= spacing <= spacing * i
      && spacing * i + spacing <= c.w
      && spacing * (i + 1) - spacing * i == spacing
  {
    var spacing := Spacing(c, count);
    DivBelow(c.w, count + 1);
    MulMonotone(spacing, 1, i);
    MulMonotone(spacing, i + 1, count + 1);
    assert spacing * (i + 1) == spacing * i + spacing;
  }

  lemma DivBelow(a: nat, b: nat)
    requires b > 0
    ensures 0 <= a / b && (a / b) * b <= a
  {
  }

  lemma MulMonotone(a: nat, b: nat, c: nat)
    requires b <= c
    ensures a * b <= a * c
  {
    assert a * c == a * b + a * (c - b);
  }

  /** A drawing belongs to the signature blocks exactly when it belongs to
      the block of some complete signer at that signer's own slot (slot j + 1
      for the signer at index j):
      skipped signers draw nothing and move no one else. */
  lemma {:induction false} SignerBlocksMembership(signers: seq<Signer>, spacing: int, sigY: int,
                                                 m: Measure, d: Decoder, op: DrawOp)
    ensures op in SignerBlocks(signers, spacing, sigY, m, d) <==>
            exists j :: 0 <= j < |signers| && Complete(signers[j])
                        && op in SignerBlock(signers[j], j + 1, spacing, sigY, m, d)
  {
    if signers != [] {
      var n := |signers|;
      var init := signers[..n - 1];
      SignerBlocksMembership(init, spacing, sigY, m, d, op);
      assert forall j :: 0 <= j < n - 1 ==> init[j] == signers[j];
      if !Complete(signers[n - 1]) {
        assert SignerBlocks(signers, spacing, sigY, m, d) == SignerBlocks(init, spacing, sigY, m, d);
      }
    }
  }

  /** A complete signer draws four things; a skipped one draws none. */
  lemma {:induction false} SignerBlocksLength(signers: seq<Signer>, spacing: int, sigY: int, m: Measure, d: Decoder)
    ensures |SignerBlocks(signers, spacing, sigY, m, d)| == 4 * |set i | 0 <= i < |signers| && Complete(signers[i])|
  {
    if signers != [] {
      var n := |signers|;
      var init := signers[..n - 1];
      SignerBlocksLength(init, spacing, sigY, m, d);
      var before := set i | 0 <= i < n - 1 && Complete(init[i]);
      var after := set i | 0 <= i < n && Complete(signers[i]);
      assert before == set i | 0 <= i < n - 1 && Complete(signers[i]);
      if Complete(signers[n - 1]) {
        assert after == before + {n - 1};
      } else {
        assert after == before;
      }
    }
  }

  /** Whether the signature opens only decides the first drawing of the block:
      the signature line and both labels stay where they are. */
  lemma DecodingOnlyChangesImage(s: Signer, i: nat, spacing: int, sigY: int, m: Measure, d1: Decoder, d2: Decoder)
    requires Complete(s)
    ensures var b1, b2 := SignerBlock(s, i, spacing, sigY, m, d1), SignerBlock(s, i, spacing, sigY, m, d2);
      |b1| == |b2| == 4 && b1[1..] == b2[1..]
    ensures var b := SignerBlock(s, i, spacing, sigY, m, d1);
      if Pastes(d1(s.signature.value)) then b[0].Paste? && b[0].px == spacing * i - 100 && b[0].py == sigY
      else b[0] == Line((spacing * i - 100) as real, (sigY + 50) as real, (spacing * i + 100) as real, (sigY + 50) as real, 1)
  {
  }

  /** The name and post labels are centred on the 200-pixel signature line,
      to within the half pixel that floor division drops. */
  lemma LabelsCentredOnSignatureLine(s: Signer, i: nat, spacing: int, sigY: int, m: Measure, d: Decoder)
    requires Complete(s)
    ensures var b := SignerBlock(s, i, spacing, sigY, m, d);
      var centre := (spacing * i) as real;
      && b[1].x1 + 100.0 == centre && b[1].y1 == (sigY + 100) as real
      && centre - 0.5 <= b[2].x + (m(s.name, SignFont).w as real) / 2.0 <= centre
      && centre - 0.5 <= b[3].x + (m(s.post, SignFont).w as real) / 2.0 <= centre
      && b[2].y == b[1].y1 + 20.0 && b[3].y == b[1].y1 + 60.0
  {
  }

  // ---------------------------------------------------------------------------
  // The drawing routine

  /** create_certificate's drawing: the main texts, then the signatures. */
  method CreateCertificate(c: Canvas, req: Request, m: Measure, d: Decoder) returns (ops: seq<DrawOp>)
    ensures ops == CertificateOps(c, req, m, d)
  {
    var main := DrawMainText(c, req, m);
    var signatures := DrawSignatures(c, req.signers, m, d);
    ops := main + signatures;
  }

  /** The main texts of create_certificate, step by step as the source draws
      them: x and y are reassigned block by block and the event lines are
      chained below the underline. */
  method DrawMainText(c: Canvas, req: Request, m: Measure) returns (ops: seq<DrawOp>)
    ensures ops == MainOps(LayoutText(c, req, m))
  {
    ghost var l := LayoutText(c, req, m);
    var imgW, imgH := c.w as real, c.h as real;

    var titleText := TitleText(req.certType);
    var titleBox := m(titleText, TitleFont);
    var x := (imgW - titleBox.w as real) / 2.0;
    var y := imgH / 3.0;
    ops := [Text(x, y, titleText, TitleFont)];
    assert ops == [l.title];

    if req.rank.Some? {
      var rankText := RankText(req.rank.value);
      x := (imgW - m(rankText, PrizeFont).w as real) / 2.0;
      y := y + (titleBox.h as real + 90.0);
      assert Text(x, y, rankText, PrizeFont) == l.rank.value;
      ops := ops + [Text(x, y, rankText, PrizeFont)];
    }
    assert ops == [l.title] + OptionOps(l.rank);

    x := (imgW - m(HeaderText, HeaderFont).w as real) / 2.0;
    y := imgH / 2.0 - 30.0;
    assert Text(x, y, HeaderText, HeaderFont) == l.header;
    ops := ops + [Text(x, y, HeaderText, HeaderFont)];

    var nameBox := m(req.name, NameFont);
    x := (imgW - nameBox.w as real) / 2.0;
    y := imgH / 2.0 + 80.0;
    assert Text(x, y, req.name, NameFont) == l.name;
    ops := ops + [Text(x, y, req.name, NameFont)];

    var lineY := y + nameBox.h as real + 30.0;
    assert Line(imgW / 4.0, lineY, 3.0 * imgW / 4.0, lineY, 2) == l.underline;
    ops := ops + [Line(imgW / 4.0, lineY, 3.0 * imgW / 4.0, lineY, 2)];
    ghost var prefix := ops;
    assert prefix == [l.title] + OptionOps(l.rank) + [l.header, l.name, l.underline];

    if req.eventName != "" && req.eventDate.Some? {
      assert l.details == Some(LayoutDetails(c, req, req.eventDate.value, lineY, m));
      var details := DrawDetails(c, req, req.eventDate.value, lineY, m);
      ops := ops + details;
    } else {
      assert l.details == None;
    }
  }

  /** The event, date and speaker lines, each 70 below the one above. */
  method DrawDetails(c: Canvas, req: Request, date: string, lineY: real, m: Measure) returns (ops: seq<DrawOp>)
    ensures ops == DetailOps(Some(LayoutDetails(c, req, date, lineY, m)))
  {
    ghost var details := LayoutDetails(c, req, date, lineY, m);
    var imgW := c.w as real;
    var eventText := EventText(req.certType, req.eventName);
    var dateText := DateText(date);
    var x := (imgW - m(eventText, DetailsFont).w as real) / 2.0;
    var y := lineY + 50.0;
    assert Text(x, y, eventText, DetailsFont) == details.event;
    ops := [Text(x, y, eventText, DetailsFont)];
    x := (imgW - m(dateText, DetailsFont).w as real) / 2.0;
    y := y + 70.0;
    assert Text(x, y, dateText, DetailsFont) == details.date;
    ops := ops + [Text(x, y, dateText, DetailsFont)];
    if req.speaker.Some? && req.speaker.value.name != "" {
      var speakerText := SpeakerText(req.speaker.value.name, req.speaker.value.designation);
      x := (imgW - m(speakerText, SpeakerFont).w as real) / 2.0;
      y := y + 70.0;
      assert Text(x, y, speakerText, SpeakerFont) == details.speaker.value;
      ops := ops + [Text(x, y, speakerText, SpeakerFont)];
    }
  }

  /** The signer loop of create_certificate: slots spaced by the number of
      configured signers, images pasted or replaced by a placeholder line. */
  method DrawSignatures(c: Canvas, signers: seq<Signer>, m: Measure, d: Decoder) returns (ops: seq<DrawOp>)
    ensures ops == SignatureOps(c, signers, m, d)
  {
    ops := [];
    if signers != [] {
      var sigY := c.h - 450;
      var spacing := c.w / (|signers| + 1);
      for k := 0 to |signers|
        invariant ops == SignerBlocks(signers[..k], spacing, sigY, m, d)
      {
        assert signers[..k + 1][..k] == signers[..k];
        var block := DrawSigner(signers[k], k + 1, spacing, sigY, m, d);
        ops := ops + block;
      }
      assert signers[..|signers|] == signers;
    }
  }

  /** One pass of the signer loop: nothing for an incomplete signer, else
      the image or placeholder, the signature line and the two labels. */
  method DrawSigner(signer: Signer, i: nat, spacing: int, sigY: int, m: Measure, d: Decoder) returns (ops: seq<DrawOp>)
    ensures ops == SignerBlock(signer, i, spacing, sigY, m, d)
  {
    ops := [];
    if signer.signature.Some? && signer.name != "" && signer.post != "" {
      var image, sx := DrawSignatureImage(signer.signature.value, i, spacing, sigY, d);
      var sigLineY := sigY + 100;
      var nameX := sx + (200 - m(signer.name, SignFont).w) / 2;
      var postX := sx + (200 - m(signer.post, SignFont).w) / 2;
      ops := ops + [image, Line(sx as real, sigLineY as real, (sx + 200) as real, sigLineY as real, 1)];
      ops := ops + [Text(nameX as real, (sigLineY + 20) as real, signer.name, SignFont)];
      ops := ops + [Text(postX as real, (sigLineY + 60) as real, signer.post, SignFont)];
    }
  }

  /** The try block around one signature: open and resize the image and
      paste it, or draw the placeholder line when any step fails; either way
      `x`, the left end of the signature line, is 100 left of the slot centre. */
  method DrawSignatureImage(upload: Upload, i: nat, spacing: int, sigY: int, d: Decoder) returns (image: DrawOp, x: int)
    ensures image == SignatureImage(i, spacing, sigY, upload, d)
    ensures x == spacing * i - 100
  {
    var decoded := d(upload);
    if decoded.Some? && decoded.value.w > 0 && (200 * decoded.value.h) / decoded.value.w > 0 {
      var newW := 200;
      var newH := (newW * decoded.value.h) / decoded.value.w;
      x := spacing * i - newW / 2;
      image := Paste(x, sigY, newW, newH);
    } else {
      x := spacing * i - 100;
      image := Line(x as real, (sigY + 50) as real, (x + 200) as real, (sigY + 50) as real, 1);
    }
  }
}
