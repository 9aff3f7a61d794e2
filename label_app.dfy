/**
 * The browser label generator (App.tsx): the form, the pending-label queue
 * (newest first), the square label card, and the two exports that turn the
 * form or the queue into 100 mm x 100 mm PDF pages.
 *
 * html2canvas is the `raster` parameter, an arbitrary function from a label
 * card and the capture options to an image; jsPDF is the class JsPdf below,
 * which keeps only the page list.
 */
module LabelApp {
  import opened Wrappers
  import LabelText

  /** One pending label: what the queue stores for each successful add. */
  datatype CredentialLabel = CredentialLabel(id: string, username: string, password: string, timestamp: int)

  // ---------------------------------------------------------------------
  // Whitespace test of `String.prototype.trim`
  // ---------------------------------------------------------------------

  /**
   * The characters JavaScript's `trim` removes: WhiteSpace and LineTerminator.
   * Space, tab and the line ends are among them; no visible ASCII character is.
   */
  predicate IsJsWhitespace(c: char)
    ensures c == ' ' || c == '\t' || c == '\n' || c == '\r' ==> IsJsWhitespace(c)
    ensures '!' <= c <= '~' ==> !IsJsWhitespace(c)
  {
    c == '\t' || c == '\n' || c == '\U{000B}' || c == '\U{000C}' || c == '\r' || c == ' '
    || c == '\U{00A0}' || c == '\U{1680}' || ('\U{2000}' <= c <= '\U{200A}')
    || c == '\U{2028}' || c == '\U{2029}' || c == '\U{202F}' || c == '\U{205F}'
    || c == '\U{3000}' || c == '\U{FEFF}'
  }

  /** `s.trimStart()`: a suffix of `s` after a whitespace-only prefix. */
  function TrimStart(s: string): (r: string)
    ensures |r| <= |s| && r == s[|s| - |r|..]
    ensures forall i :: 0 <= i < |s| - |r| ==> IsJsWhitespace(s[i])
    ensures r != [] ==> !IsJsWhitespace(r[0])
  {
    if s != [] && IsJsWhitespace(s[0]) then TrimStart(s[1..]) else s
  }

  /** `s.trimEnd()`: a prefix of `s` before a whitespace-only suffix. */
  function TrimEnd(s: string): (r: string)
    ensures |r| <= |s| && r == s[..|r|]
    ensures forall i :: |r| <= i < |s| ==> IsJsWhitespace(s[i])
    ensures r != [] ==> !IsJsWhitespace(r[|r| - 1])
  {
    if s != [] && IsJsWhitespace(s[|s| - 1]) then TrimEnd(s[..|s| - 1]) else s
  }

  /**
   * `s.trim()`: `s` without its leading and trailing whitespace. Every
   * character kept comes from `s`, and a non-empty result starts and ends
   * with a character that is not whitespace.
   */
  function Trim(s: string): (r: string)
    ensures |r| <= |s|
    ensures forall c :: c in r ==> c in s
    ensures r != [] ==> !IsJsWhitespace(r[0]) && !IsJsWhitespace(r[|r| - 1])
    ensures r == [] <==> Blank(s)
  {
    var t := TrimStart(s);
    assert t != [] ==> t[0] == s[|s| - |t|];
    TrimEmptyIffBlank(s);
    TrimEnd(t)
  }

  /** Trimming both ends leaves nothing exactly when every character is whitespace. */
  lemma TrimEmptyIffBlank(s: string)
    ensures TrimEnd(TrimStart(s)) == [] <==> Blank(s)
  {
    var t := TrimStart(s);
    var k := |s| - |t|;
    assert t == s[k..];
    if TrimEnd(t) == [] {
      forall i | 0 <= i < |s| ensures IsJsWhitespace(s[i]) {
        if k <= i {
          assert s[i] == t[i - k];
        }
      }
    }
    if t != [] {
      assert t[0] == s[k];
    }
  }

  /**
   * A value made of whitespace only: by Trim's contract and
   * TrimEmptyIffBlank, exactly the values for which `!s.trim()` holds.
   */
  predicate Blank(s: string) {
    forall i :: 0 <= i < |s| ==> IsJsWhitespace(s[i])
  }

  // ---------------------------------------------------------------------
  // The queue updates: `[newLabel, ...prev]` and `prev.filter(...)`
  // ---------------------------------------------------------------------

  /** `prev.filter(item => item.id !== id)`. */
  function RemoveId(s: seq<CredentialLabel>, id: string): (r: seq<CredentialLabel>)
    ensures |r| <= |s|
    ensures forall x :: x in r <==> x in s && x.id != id
  {
    if s == [] then []
    else (if s[0].id == id then [] else [s[0]]) + RemoveId(s[1..], id)
  }

  /** Filtering distributes over concatenation, so it keeps the original order. */
  lemma {:induction false} RemoveIdConcat(a: seq<CredentialLabel>, b: seq<CredentialLabel>, id: string)
    ensures RemoveId(a + b, id) == RemoveId(a, id) + RemoveId(b, id)
  {
    if a == [] {
      assert a + b == b;
    } else {
      assert (a + b)[1..] == a[1..] + b;
      RemoveIdConcat(a[1..], b, id);
    }
  }

  /** Removing an id that no record carries leaves the queue equal. */
  lemma {:induction false} RemoveIdAbsent(s: seq<CredentialLabel>, id: string)
    requires forall k :: 0 <= k < |s| ==> s[k].id != id
    ensures RemoveId(s, id) == s
  {
    if s != [] {
      RemoveIdAbsent(s[1..], id);
    }
  }

  /** Removing the same id twice is the same as removing it once. */
  lemma RemoveIdIdempotent(s: seq<CredentialLabel>, id: string)
    ensures RemoveId(RemoveId(s, id), id) == RemoveId(s, id)
  {
    var r := RemoveId(s, id);
    forall k | 0 <= k < |r| ensures r[k].id != id {
      assert r[k] in r;
    }
    RemoveIdAbsent(r, id);
  }

  /**
   * Adding a record whose id the queue does not yet hold and then removing
   * that id gives back the queue as it was.
   */
  lemma RemoveFreshHead(s: seq<CredentialLabel>, x: CredentialLabel)
    requires forall k :: 0 <= k < |s| ==> s[k].id != x.id
    ensures RemoveId([x] + s, x.id) == s
  {
    RemoveIdConcat([x], s, x.id);
    RemoveIdAbsent(s, x.id);
    assert RemoveId([x], x.id) == [] + RemoveId([], x.id);
  }

  // ---------------------------------------------------------------------
  // The label card (LabelCard)
  // ---------------------------------------------------------------------

  datatype QrCode = QrCode(value: string, size: nat, level: char)
  datatype LabelField = LabelField(heading: string, qr: QrCode, caption: string)
  /** The rendered 400 px square; `className` is the extra CSS class, if any. */
  datatype Label = Label(className: Option<string>, user: LabelField, password: LabelField)

  const QrSize := 130
  const QrLevel := 'H'

  function Field(heading: string, value: string): LabelField {
    LabelField(heading, QrCode(LabelText.QrPayload(value), QrSize, QrLevel), LabelText.Caption(value))
  }

  /**
   * The card for a username and a password: neither QR payload is empty, and
   * the payload and caption of each half determine the value typed.
   */
  function LabelCard(username: string, password: string, className: Option<string>): (card: Label)
    ensures card.user.qr.value != "" && card.password.qr.value != ""
    ensures card.user.qr.size == card.password.qr.size == QrSize
    ensures LabelText.Recover(card.user.qr.value, card.user.caption) == username
    ensures LabelText.Recover(card.password.qr.value, card.password.caption) == password
  {
    LabelText.RecoverInverts(username);
    LabelText.RecoverInverts(password);
    Label(className, Field("Usu\U{00E1}rio", username), Field("Senha", password))
  }

  /** Two cards with the same extra class are equal only for equal inputs. */
  lemma LabelCardInjective(u1: string, p1: string, u2: string, p2: string, className: Option<string>)
    requires LabelCard(u1, p1, className) == LabelCard(u2, p2, className)
    ensures u1 == u2 && p1 == p2
  {
    var c1 := LabelCard(u1, p1, className);
    assert LabelText.Recover(c1.user.qr.value, c1.user.caption) == u1;
  }

  // ---------------------------------------------------------------------
  // The document: jsPDF pages and the downloaded artifact
  // ---------------------------------------------------------------------

  datatype Orientation = Portrait | Landscape
  /** A page format in millimetres. */
  datatype Format = Format(width: int, height: int)
  datatype Placement<Img> = Placement(image: Img, x: int, y: int, width: int, height: int)
  datatype Page<Img> = Page(format: Format, orientation: Orientation, images: seq<Placement<Img>>)
  /** What `pdf.save(filename)` hands to the browser. */
  datatype Download<Img> = Download(filename: string, pages: seq<Page<Img>>)

  /** The 100 mm x 100 mm format of every page. */
  const PageFormat := Format(100, 100)

  /** html2canvas options `{ scale, backgroundColor }`. */
  datatype CaptureOptions = CaptureOptions(scale: nat, backgroundColor: string)
  const Capture := CaptureOptions(3, "#ffffff")

  /** The rasterizer: any function from a card and options to an image. */
  type Rasterizer<Img> = (Label, CaptureOptions) -> Img

  /** A page of the standard format holding one image that covers it. */
  function FullBleed<Img>(img: Img): Page<Img> {
    Page(PageFormat, Portrait, [Placement(img, 0, 0, 100, 100)])
  }

  /** `pages` with `p` placed on the last (current) page. */
  function WithImage<Img>(pages: seq<Page<Img>>, p: Placement<Img>): seq<Page<Img>>
    requires pages != []
  {
    var last := pages[|pages| - 1];
    pages[..|pages| - 1] + [last.(images := last.images + [p])]
  }

  /** Placing an image on a blank last page makes it a page with that image alone. */
  lemma WithImageOnBlank<Img>(done: seq<Page<Img>>, format: Format, orientation: Orientation, p: Placement<Img>)
    ensures WithImage(done + [Page(format, orientation, [])], p) == done + [Page(format, orientation, [p])]
  {
    var pages := done + [Page(format, orientation, [])];
    assert pages[..|pages| - 1] == done;
    assert pages[|pages| - 1].images + [p] == [p];
  }

  /** A jsPDF document: a non-empty list of pages, the last one current. */
  class JsPdf<Img> {
    var pages: seq<Page<Img>>

    ghost predicate Valid()
      reads this
    {
      pages != []
    }

    /** `new jsPDF({ orientation, unit: 'mm', format })` starts with one blank page. */
    constructor (format: Format, orientation: Orientation)
      ensures Valid()
      ensures pages == [Page(format, orientation, [])]
    {
      pages := [Page(format, orientation, [])];
    }

    /** `pdf.addPage(format, orientation)` appends a blank page. */
    method AddPage(format: Format, orientation: Orientation)
      requires Valid()
      modifies this
      ensures Valid()
      ensures pages == old(pages) + [Page(format, orientation, [])]
    {
      pages := pages + [Page(format, orientation, [])];
    }

    /** `pdf.addImage(img, 'PNG', x, y, w, h)` draws on the current page. */
    method AddImage(image: Img, x: int, y: int, width: int, height: int)
      requires Valid()
      modifies this
      ensures Valid()
      ensures pages == WithImage(old(pages), Placement(image, x, y, width, height))
    {
      pages := WithImage(pages, Placement(image, x, y, width, height));
    }

    /** `pdf.save(filename)` hands over every page, in order, under `filename`. */
    function Save(filename: string): (d: Download<Img>)
      reads this
      ensures d.filename == filename
      ensures |d.pages| == |pages| && forall k :: 0 <= k < |pages| ==> d.pages[k] == pages[k]
      ensures Valid() ==> d.pages != []
    {
      Download(filename, pages)
    }
  }

  /** The image html2canvas makes of a queued item rendered offscreen. */
  function ItemImage<Img>(raster: Rasterizer<Img>, item: CredentialLabel): Img {
    raster(LabelCard(item.username, item.password, None), Capture)
  }

  /** The pages of a batch export: one full-bleed page per item, in order. */
  function RenderedPages<Img>(raster: Rasterizer<Img>, items: seq<CredentialLabel>): seq<Page<Img>> {
    if items == [] then []
    else [FullBleed(ItemImage(raster, items[0]))] + RenderedPages(raster, items[1..])
  }

  /**
   * A batch document has one page per item; page k is 100 mm x 100 mm, in
   * portrait, and holds exactly the image of item k placed at (0, 0, 100, 100).
   */
  lemma {:induction false} RenderedPagesShape<Img>(raster: Rasterizer<Img>, items: seq<CredentialLabel>)
    ensures |RenderedPages(raster, items)| == |items|
    ensures forall k :: 0 <= k < |items| ==>
      RenderedPages(raster, items)[k] == Page(Format(100, 100), Portrait, [Placement(ItemImage(raster, items[k]), 0, 0, 100, 100)])
  {
    if items != [] {
      RenderedPagesShape(raster, items[1..]);
      forall k | 0 < k < |items|
        ensures RenderedPages(raster, items)[k] == RenderedPages(raster, items[1..])[k - 1]
      {
      }
    }
  }

  /** Rendering one more item appends exactly its page. */
  lemma {:induction false} RenderedPagesSnoc<Img>(raster: Rasterizer<Img>, items: seq<CredentialLabel>, x: CredentialLabel)
    ensures RenderedPages(raster, items + [x]) == RenderedPages(raster, items) + [FullBleed(ItemImage(raster, x))]
  {
    if items == [] {
      assert items + [x] == [x];
      assert [x][1..] == [];
    } else {
      assert (items + [x])[1..] == items[1..] + [x];
      RenderedPagesSnoc(raster, items[1..], x);
    }
  }

  /** Before any item is placed, the document's one blank page covers no items. */
  lemma BatchStart<Img>(raster: Rasterizer<Img>, items: seq<CredentialLabel>)
    ensures [Page(PageFormat, Portrait, [])] == RenderedPages(raster, items[..0]) + [Page(PageFormat, Portrait, [])]
  {
    assert items[..0] == [];
  }

  /** Placing item i on a fresh blank page after the pages of items 0..i-1 gives the pages of items 0..i. */
  lemma BatchStep<Img>(raster: Rasterizer<Img>, items: seq<CredentialLabel>, i: nat)
    requires i < |items|
    ensures WithImage(RenderedPages(raster, items[..i]) + [Page(PageFormat, Portrait, [])],
                      Placement(ItemImage(raster, items[i]), 0, 0, 100, 100))
            == RenderedPages(raster, items[..i + 1])
  {
    WithImageOnBlank(RenderedPages(raster, items[..i]), PageFormat, Portrait, Placement(ItemImage(raster, items[i]), 0, 0, 100, 100));
    RenderedPagesSnoc(raster, items[..i], items[i]);
    assert items[..i + 1] == items[..i] + [items[i]];
  }

  // ---------------------------------------------------------------------
  // File names
  // ---------------------------------------------------------------------

  function DigitChar(d: nat): (c: char)
    requires d < 10
    ensures '0' <= c <= '9'
  {
    (('0' as int) + d) as char
  }

  /** The decimal text of a non-negative integer, as JavaScript prints it. */
  function DecimalString(n: nat): (r: string)
    ensures r != []
    ensures forall i :: 0 <= i < |r| ==> '0' <= r[i] <= '9'
    ensures |r| > 1 ==> r[0] != '0'
  {
    if n < 10 then [DigitChar(n)] else DecimalString(n / 10) + [DigitChar(n % 10)]
  }

  /** The value of a string of decimal digits (the reference for DecimalString). */
  function DecimalValue(s: string): nat
    requires forall i :: 0 <= i < |s| ==> '0' <= s[i] <= '9'
  {
    if s == [] then 0 else DecimalValue(s[..|s| - 1]) * 10 + (s[|s| - 1] as int - '0' as int)
  }

  /** The decimal text reads back as the number it was made from. */
  lemma {:induction false} DecimalRoundTrip(n: nat)
    ensures DecimalValue(DecimalString(n)) == n
  {
    if n >= 10 {
      var r := DecimalString(n);
      assert r[..|r| - 1] == DecimalString(n / 10);
      DecimalRoundTrip(n / 10);
    }
  }

  /** `etiqueta-${username || 'credencial'}.pdf`. */
  function IndividualFilename(username: string): (f: string)
    ensures |f| >= 14 && f[..9] == "etiqueta-" && f[|f| - 4..] == ".pdf"
    ensures username != "" ==> f[9..|f| - 4] == username
    ensures username == "" ==> f == "etiqueta-credencial.pdf"
  {
    "etiqueta-" + (if username == "" then "credencial" else username) + ".pdf"
  }

  /** `lote-etiquetas-10x10-${Date.now()}.pdf`, whose digits read back as `now`. */
  function BatchFilename(now: nat): (f: string)
    ensures |f| > 25 && f[..21] == "lote-etiquetas-10x10-" && f[|f| - 4..] == ".pdf"
    ensures DecimalString(now) == f[21..|f| - 4] && DecimalValue(f[21..|f| - 4]) == now
  {
    DecimalRoundTrip(now);
    var f := "lote-etiquetas-10x10-" + DecimalString(now) + ".pdf";
    assert f[21..|f| - 4] == DecimalString(now);
    f
  }

  // ---------------------------------------------------------------------
  // The application state and its handlers
  // ---------------------------------------------------------------------

  /** Exports a card as a one-page document (`generatePDF`). */
  method GeneratePdf<Img>(raster: Rasterizer<Img>, element: Label, filename: string) returns (d: Download<Img>)
    ensures d.filename == filename
    ensures d.pages == [Page(PageFormat, Portrait, [Placement(raster(element, Capture), 0, 0, 100, 100)])]
  {
    var imgData := raster(element, Capture);
    var pdf := new JsPdf<Img>(PageFormat, Portrait);
    pdf.AddImage(imgData, 0, 0, 100, 100);
    var none: seq<Page<Img>> := [];
    WithImageOnBlank(none, PageFormat, Portrait, Placement(imgData, 0, 0, 100, 100));
    assert none + [Page(PageFormat, Portrait, [])] == [Page(PageFormat, Portrait, [])];
    d := pdf.Save(filename);
  }

  class App {
    var username: string
    var password: string
    var batch: seq<CredentialLabel>

    constructor ()
      ensures username == "" && password == "" && batch == []
    {
      username, password, batch := "", "", [];
    }

    /** The username input's `onChange`. */
    method SetUsername(value: string)
      modifies this`username
      ensures username == value
    {
      username := value;
    }

    /** The password input's `onChange`. */
    method SetPassword(value: string)
      modifies this`password
      ensures password == value
    {
      password := value;
    }

    /** The on-screen preview card (with its extra shadow class). */
    function Preview(): (card: Label)
      reads this
      ensures card.className == Some("shadow-2xl")
      ensures card.user.qr.value != "" && card.password.qr.value != ""
      ensures LabelText.Recover(card.user.qr.value, card.user.caption) == username
      ensures LabelText.Recover(card.password.qr.value, card.password.caption) == password
    {
      LabelCard(username, password, Some("shadow-2xl"))
    }

    /**
     * `handleAddToBatch`: ignored when either field trims to empty; otherwise
     * the new record goes in front of the queue and the form is cleared.
     */
    method HandleAddToBatch(id: string, now: int)
      modifies this
      ensures Blank(old(username)) || Blank(old(password)) ==>
        batch == old(batch) && username == old(username) && password == old(password)
      ensures !Blank(old(username)) && !Blank(old(password)) ==>
        batch == [CredentialLabel(id, old(username), old(password), now)] + old(batch)
        && username == "" && password == ""
    {
      if Blank(username) || Blank(password) {
        return;
      }
      var newLabel := CredentialLabel(id, username, password, now);
      batch := [newLabel] + batch;
      username := "";
      password := "";
    }

    /** `removeFromBatch`: keeps every record whose id differs. */
    method RemoveFromBatch(id: string)
      modifies this`batch
      ensures batch == RemoveId(old(batch), id)
    {
      batch := RemoveId(batch, id);
    }

    /**
     * `handleDownloadIndividual`: when the preview is mounted, a one-page
     * document of the preview card named after the username.
     */
    method HandleDownloadIndividual<Img>(raster: Rasterizer<Img>, mounted: bool) returns (d: Option<Download<Img>>)
      ensures d.Some? <==> mounted
      ensures d.Some? ==>
        d.value.filename == IndividualFilename(username) && d.value.pages == [FullBleed(raster(Preview(), Capture))]
    {
      if !mounted {
        return None;
      }
      var r := GeneratePdf(raster, Preview(), IndividualFilename(username));
      d := Some(r);
    }

    /**
     * `handleDownloadBatch`: nothing on an empty queue; otherwise one page per
     * queued item, in queue order, saved under the timestamped name. It has no
     * modifies clause, so the queue and the form are left as they were.
     */
    method HandleDownloadBatch<Img>(raster: Rasterizer<Img>, now: nat) returns (d: Option<Download<Img>>)
      ensures d.None? <==> batch == []
      ensures d.Some? ==> d.value.filename == BatchFilename(now) && d.value.pages == RenderedPages(raster, batch)
    {
      if |batch| == 0 {
        return None;
      }
      var pdf := new JsPdf<Img>(PageFormat, Portrait);
      for i := 0 to |batch|
        invariant pdf.Valid()
        invariant i == 0 ==> pdf.pages == [Page(PageFormat, Portrait, [])]
        invariant 0 < i ==> pdf.pages == RenderedPages(raster, batch[..i])
      {
        var item := batch[i];
        var imgData := ItemImage(raster, item);
        if i > 0 {
          pdf.AddPage(PageFormat, Portrait);
        } else {
          BatchStart(raster, batch);
        }
        pdf.AddImage(imgData, 0, 0, 100, 100);
        BatchStep(raster, batch, i);
      }
      assert batch[..|batch|] == batch;
      d := Some(pdf.Save(BatchFilename(now)));
    }
  }

  /**
   * Two adds followed by a batch export: the queue is newest first, the first
   * page shows the newer pair, and the export leaves the queue as it was.
   */
  method TwoAddsThenExport<Img>(raster: Rasterizer<Img>, u1: string, p1: string, u2: string, p2: string,
                                id1: string, id2: string, t1: int, t2: int, now: nat)
    returns (queue: seq<CredentialLabel>, d: Option<Download<Img>>, after: seq<CredentialLabel>)
    requires !Blank(u1) && !Blank(p1) && !Blank(u2) && !Blank(p2)
    ensures queue == [CredentialLabel(id2, u2, p2, t2), CredentialLabel(id1, u1, p1, t1)]
    ensures after == queue
    ensures d.Some? && |d.value.pages| == 2
    ensures d.value.pages[0].images == [Placement(raster(LabelCard(u2, p2, None), Capture), 0, 0, 100, 100)]
    ensures d.value.pages[1].images == [Placement(raster(LabelCard(u1, p1, None), Capture), 0, 0, 100, 100)]
  {
    var app := new App();
    app.SetUsername(u1);
    app.SetPassword(p1);
    app.HandleAddToBatch(id1, t1);
    ghost var first := app.batch;
    assert first == [CredentialLabel(id1, u1, p1, t1)];
    app.SetUsername(u2);
    app.SetPassword(p2);
    app.HandleAddToBatch(id2, t2);
    queue := app.batch;
    assert queue == [CredentialLabel(id2, u2, p2, t2)] + first;
    d := app.HandleDownloadBatch(raster, now);
    after := app.batch;
    RenderedPagesShape(raster, queue);
  }
}
