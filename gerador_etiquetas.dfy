/**
 * The desktop label generator (gerador_etiquetas.py): a Tk form whose
 * pending labels sit in a list kept side by side with a list box, a label
 * image laid out on a 1181 x 1181 px canvas (100 mm at 300 dpi), and a
 * reportlab canvas that receives one 100 mm x 100 mm page per label.
 *
 * The PIL image is modelled by its layout (where each heading, QR box and
 * caption is drawn, and what each says); the pixels, fonts and QR modules
 * are not. Lengths on the PDF side are in millimetres.
 */
module GeradorEtiquetas {
  import opened Wrappers
  import LabelText

  // ---------------------------------------------------------------------
  // The label image (generate_label_image)
  // ---------------------------------------------------------------------

  /** The canvas side in pixels: 100 mm at 300 dpi. */
  const CanvasSize := 1181
  /** The side of the pasted QR image after `resize((400, 400))`. */
  const QrSide := 400

  datatype Point = Point(x: int, y: int)
  /** An axis-aligned box: top-left corner and side lengths. */
  datatype Box = Box(left: int, top: int, width: int, height: int)

  /** One drawn block: a heading, a QR code image and the text under it. */
  datatype Section = Section(
    heading: string, headingAt: Point,
    qrPayload: string, qrBox: Box,
    caption: string, captionAt: Point)

  datatype LabelImage = LabelImage(size: int, background: string, user: Section, password: Section)

  predicate BoxInside(b: Box, size: int) {
    0 <= b.left && b.left + b.width <= size && 0 <= b.top && b.top + b.height <= size
  }

  predicate PointInside(p: Point, size: int) {
    0 <= p.x < size && 0 <= p.y < size
  }

  /**
   * `add_qr_section(text_content, label_text, y_offset, sub_offset)`: the
   * heading at `y_offset`, a 400 x 400 QR box below it and the caption 20 px
   * under the box, all three centred on the canvas' vertical axis. The raise
   * `sub_offset` moves box and caption but not the heading.
   */
  function AddQrSection(textContent: string, labelText: string, yOffset: int, subOffset: int): (r: Section)
    ensures r.heading == labelText && r.headingAt.y == yOffset
    ensures r.qrBox.width == r.qrBox.height == QrSide
    ensures r.headingAt.x == r.captionAt.x == r.qrBox.left + r.qrBox.width / 2 == CanvasSize / 2
    ensures r.qrBox.top == r.headingAt.y + 40 + subOffset
    ensures r.captionAt.y == r.qrBox.top + r.qrBox.height + 20
    ensures r.qrPayload != ""
    ensures LabelText.Recover(r.qrPayload, r.caption) == textContent
  {
    LabelText.RecoverInverts(textContent);
    Section(
      labelText, Point(CanvasSize / 2, yOffset),
      LabelText.QrPayload(textContent), Box(CanvasSize / 2 - QrSide / 2, yOffset + 40 + subOffset, QrSide, QrSide),
      LabelText.Caption(textContent), Point(CanvasSize / 2, yOffset + 460 + subOffset))
  }

  /**
   * `generate_label_image(user, pwd)`: the user block at y_offset 150 and the
   * password block at y_offset 620 raised by 40 px. Both QR boxes lie inside
   * the canvas, centred on the headings' vertical axis, the user box wholly
   * above the password box; each caption anchor is inside the canvas and
   * below its QR box; neither QR payload is empty; and payload and caption
   * of each block determine the value typed. The password heading's anchor
   * lies on the top edge of its QR box, because the raise is not applied to
   * the heading.
   */
  function GenerateLabelImage(user: string, pwd: string): (img: LabelImage)
    ensures img.size == CanvasSize
    ensures BoxInside(img.user.qrBox, CanvasSize) && BoxInside(img.password.qrBox, CanvasSize)
    ensures img.user.qrBox.left + img.user.qrBox.width / 2 == img.user.headingAt.x
    ensures img.password.qrBox.left + img.password.qrBox.width / 2 == img.password.headingAt.x
    ensures img.user.qrBox.top + img.user.qrBox.height <= img.password.qrBox.top
    ensures PointInside(img.user.headingAt, CanvasSize) && PointInside(img.password.headingAt, CanvasSize)
    ensures PointInside(img.user.captionAt, CanvasSize) && PointInside(img.password.captionAt, CanvasSize)
    ensures img.user.headingAt.y < img.user.qrBox.top
    ensures img.password.headingAt.y == img.password.qrBox.top
    ensures img.user.captionAt.y > img.user.qrBox.top + img.user.qrBox.height
    ensures img.password.captionAt.y > img.password.qrBox.top + img.password.qrBox.height
    ensures img.user.qrPayload != "" && img.password.qrPayload != ""
    ensures LabelText.Recover(img.user.qrPayload, img.user.caption) == user
    ensures LabelText.Recover(img.password.qrPayload, img.password.caption) == pwd
  {
    LabelText.RecoverInverts(user);
    LabelText.RecoverInverts(pwd);
    LabelImage(CanvasSize, "white",
      AddQrSection(user, "USU\U{00C1}RIO", 150, 0),
      AddQrSection(pwd, "SENHA", 620, -40))
  }

  // ---------------------------------------------------------------------
  // The PDF file: a reportlab canvas
  // ---------------------------------------------------------------------

  /** A page size in millimetres. */
  datatype PageSize = PageSize(width: int, height: int)
  datatype Drawing = Drawing(image: LabelImage, x: int, y: int, width: int, height: int)
  /** What `c.save()` writes to `path`: its pages, each a list of drawings. */
  datatype PdfFile = PdfFile(path: string, pageSize: PageSize, pages: seq<seq<Drawing>>)

  /** `pagesize=(100*mm, 100*mm)`. */
  const LabelPageSize := PageSize(100, 100)

  /**
   * A reportlab canvas: the pages finished so far and the drawings of the
   * page in progress.
   */
  class Canvas {
    const path: string
    const pageSize: PageSize
    var pages: seq<seq<Drawing>>
    var current: seq<Drawing>

    /** `canvas.Canvas(path, pagesize=...)`: no page finished, an empty one in progress. */
    constructor (path: string, pageSize: PageSize)
      ensures this.path == path && this.pageSize == pageSize
      ensures pages == [] && current == []
    {
      this.path := path;
      this.pageSize := pageSize;
      pages, current := [], [];
    }

    /** `c.drawImage(img, x, y, width, height)` draws on the page in progress. */
    method DrawImage(image: LabelImage, x: int, y: int, width: int, height: int)
      modifies this
      ensures pages == old(pages)
      ensures current == old(current) + [Drawing(image, x, y, width, height)]
    {
      current := current + [Drawing(image, x, y, width, height)];
    }

    /** `c.showPage()` finishes the page in progress and starts an empty one. */
    method ShowPage()
      modifies this
      ensures pages == old(pages) + [old(current)]
      ensures current == []
    {
      pages := pages + [current];
      current := [];
    }

    /** `c.save()`: the finished pages, plus the page in progress if anything is on it. */
    function Saved(): (f: PdfFile)
      reads this
      ensures f.path == path && f.pageSize == pageSize
      ensures |f.pages| == |pages| + (if current == [] then 0 else 1)
      ensures f.pages[..|pages|] == pages
      ensures current != [] ==> f.pages[|pages|] == current
    {
      PdfFile(path, pageSize, pages + (if current == [] then [] else [current]))
    }
  }

  /**
   * The two shapes of item dictionary the program builds: a queued one
   * `{"id", "user", "pass"}` and the form's own `{"user", "pass"}`.
   */
  datatype Item = BatchItem(id: string, user: string, pass: string) | FormItem(user: string, pass: string)

  /** The single full-page drawing of an item's label. */
  function LabelPage(item: Item): seq<Drawing> {
    [Drawing(GenerateLabelImage(item.user, item.pass), 0, 0, 100, 100)]
  }

  /** The pages `create_pdf` emits for a list of items: one per item, in order. */
  function LabelPages(items: seq<Item>): seq<seq<Drawing>> {
    if items == [] then [] else [LabelPage(items[0])] + LabelPages(items[1..])
  }

  /**
   * One page per item; page k holds exactly one drawing, item k's label
   * image stretched over the whole 100 mm x 100 mm page.
   */
  lemma {:induction false} LabelPagesShape(items: seq<Item>)
    ensures |LabelPages(items)| == |items|
    ensures forall k :: 0 <= k < |items| ==>
      LabelPages(items)[k] == [Drawing(GenerateLabelImage(items[k].user, items[k].pass), 0, 0, 100, 100)]
  {
    if items != [] {
      LabelPagesShape(items[1..]);
      forall k | 0 < k < |items|
        ensures LabelPages(items)[k] == LabelPages(items[1..])[k - 1]
      {
      }
    }
  }

  /** One more item appends exactly its page. */
  lemma {:induction false} LabelPagesSnoc(items: seq<Item>, x: Item)
    ensures LabelPages(items + [x]) == LabelPages(items) + [LabelPage(x)]
  {
    if items == [] {
      assert items + [x] == [x];
      assert [x][1..] == [];
    } else {
      assert (items + [x])[1..] == items[1..] + [x];
      LabelPagesSnoc(items[1..], x);
    }
  }

  /** Finishing item i's page after the pages of items 0..i-1 gives the pages of items 0..i. */
  lemma LabelPagesStep(items: seq<Item>, i: nat)
    requires i < |items|
    ensures LabelPages(items[..i]) + [LabelPage(items[i])] == LabelPages(items[..i + 1])
  {
    LabelPagesSnoc(items[..i], items[i]);
    assert items[..i + 1] == items[..i] + [items[i]];
  }

  // ---------------------------------------------------------------------
  // The queue and the form (GeradorEtiquetasApp)
  // ---------------------------------------------------------------------

  /** `str(uuid.uuid4())[:8]`: at most the first eight characters. */
  function ShortId(uuidText: string): (id: string)
    ensures |id| == (if |uuidText| < 8 then |uuidText| else 8)
    ensures id == uuidText[..|id|]
  {
    if |uuidText| <= 8 then uuidText else uuidText[..8]
  }

  /** The list box line of a queued item: `f"{item['user']} ({item['id']})"`. */
  function ListEntry(item: Item): (line: string)
    requires item.BatchItem?
    ensures |line| == |item.user| + |item.id| + 3
    ensures line[..|item.user|] == item.user
    ensures line[|item.user|..|item.user| + 2] == " ("
    ensures line[|item.user| + 2..|line| - 1] == item.id
    ensures line[|line| - 1] == ')'
  {
    item.user + " (" + item.id + ")"
  }

  class GeradorEtiquetasApp {
    var batch: seq<Item>
    /** The lines of the Tk list box. */
    var listbox: seq<string>
    /** The texts of the two entry widgets. */
    var entUser: string
    var entPass: string
    /** The image the preview shows (before its on-screen downscaling). */
    var preview: LabelImage

    /**
     * The list and the list box stay parallel: one line per queued item,
     * line i describing item i; the preview shows the current entries.
     */
    ghost predicate Valid()
      reads this
    {
      |listbox| == |batch|
      && (forall i :: 0 <= i < |batch| ==> batch[i].BatchItem? && listbox[i] == ListEntry(batch[i]))
      && preview == GenerateLabelImage(entUser, entPass)
    }

    /** `__init__` and `setup_ui`: empty queue and entries, preview of the empty label. */
    constructor ()
      ensures Valid()
      ensures batch == [] && listbox == [] && entUser == "" && entPass == ""
    {
      batch, listbox := [], [];
      entUser, entPass := "", "";
      preview := GenerateLabelImage("", "");
    }

    /** `update_preview`: redraw the preview from the entries. */
    method UpdatePreview()
      modifies this`preview
      ensures preview == GenerateLabelImage(entUser, entPass)
    {
      preview := GenerateLabelImage(entUser, entPass);
    }

    /** Typing into the entries, then the `<KeyRelease>` binding. */
    method EditEntries(user: string, pass: string)
      requires Valid()
      modifies this
      ensures Valid()
      ensures entUser == user && entPass == pass
      ensures batch == old(batch) && listbox == old(listbox)
    {
      entUser, entPass := user, pass;
      UpdatePreview();
    }

    /**
     * `add_to_batch`: warns and changes nothing when either entry is empty
     * (no trimming); otherwise appends the item and its list box line at the
     * end, clears both entries and redraws the preview.
     */
    method AddToBatch(uuidText: string) returns (warned: bool)
      requires Valid()
      modifies this
      ensures Valid()
      ensures warned <==> old(entUser) == "" || old(entPass) == ""
      ensures warned ==>
        batch == old(batch) && listbox == old(listbox)
        && entUser == old(entUser) && entPass == old(entPass) && preview == old(preview)
      ensures !warned ==>
        var item := BatchItem(ShortId(uuidText), old(entUser), old(entPass));
        batch == old(batch) + [item] && listbox == old(listbox) + [ListEntry(item)]
        && entUser == "" && entPass == ""
    {
      var user := entUser;
      var pwd := entPass;
      if user == "" || pwd == "" {
        return true;
      }
      var item := BatchItem(ShortId(uuidText), user, pwd);
      batch := batch + [item];
      listbox := listbox + [ListEntry(item)];
      entUser, entPass := "", "";
      UpdatePreview();
      warned := false;
    }

    /**
     * `remove_from_batch` with the list box's `curselection()`: nothing
     * without a selection; otherwise the first selected index leaves both
     * lists, the rest keeping their order.
     */
    method RemoveFromBatch(selection: seq<nat>)
      requires Valid()
      requires forall k :: 0 <= k < |selection| ==> selection[k] < |listbox|
      modifies this`batch, this`listbox
      ensures Valid()
      ensures selection == [] ==> batch == old(batch) && listbox == old(listbox)
      ensures selection != [] ==>
        var idx := selection[0];
        batch == old(batch)[..idx] + old(batch)[idx + 1..]
        && listbox == old(listbox)[..idx] + old(listbox)[idx + 1..]
    {
      if selection != [] {
        var idx := selection[0];
        batch := batch[..idx] + batch[idx + 1..];
        listbox := listbox[..idx] + listbox[idx + 1..];
      }
    }

    /** `create_pdf(path, items)`: draw each item's label on its own page, in order. */
    method CreatePdf(path: string, items: seq<Item>) returns (file: PdfFile)
      ensures file == PdfFile(path, LabelPageSize, LabelPages(items))
    {
      var c := new Canvas(path, LabelPageSize);
      for i := 0 to |items|
        invariant c.pages == LabelPages(items[..i]) && c.current == []
      {
        var img := GenerateLabelImage(items[i].user, items[i].pass);
        c.DrawImage(img, 0, 0, 100, 100);
        assert c.current == LabelPage(items[i]);
        c.ShowPage();
        LabelPagesStep(items, i);
      }
      assert items[..|items|] == items;
      file := c.Saved();
    }

    /**
     * `save_individual` with the path the save dialog returned (empty when
     * cancelled): nothing when either entry is empty or the dialog was
     * cancelled; otherwise a one-page file of the entries' label.
     */
    method SaveIndividual(dialogPath: string) returns (file: Option<PdfFile>)
      ensures file.Some? <==> entUser != "" && entPass != "" && dialogPath != ""
      ensures file.Some? ==>
        file.value == PdfFile(dialogPath, LabelPageSize, [[Drawing(GenerateLabelImage(entUser, entPass), 0, 0, 100, 100)]])
    {
      var user := entUser;
      var pwd := entPass;
      if user == "" || pwd == "" {
        return None;
      }
      if dialogPath == "" {
        return None;
      }
      var f := CreatePdf(dialogPath, [FormItem(user, pwd)]);
      assert [FormItem(user, pwd)][1..] == [];
      file := Some(f);
    }

    /**
     * `save_batch` with the dialog's path: nothing for an empty queue or a
     * cancelled dialog; otherwise one page per queued item, in queue order.
     */
    method SaveBatch(dialogPath: string) returns (file: Option<PdfFile>)
      ensures file.Some? <==> batch != [] && dialogPath != ""
      ensures file.Some? ==> file.value == PdfFile(dialogPath, LabelPageSize, LabelPages(batch))
    {
      if batch == [] {
        return None;
      }
      if dialogPath == "" {
        return None;
      }
      var f := CreatePdf(dialogPath, batch);
      file := Some(f);
    }
  }
}
