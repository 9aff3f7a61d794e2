# Credential label generator — a Dafny model

The repository is a small tool that prints credential labels. An operator
types a username and a password and previews a square label. The label holds
two QR codes, one per field, each with a caption. The operator can queue
several such pairs and export either one label or the whole queue as PDF
pages of 100 mm x 100 mm. It exists twice:

- `App.tsx` is a React page. The queue is newest first. html2canvas captures
  each label and jsPDF builds the document.
- `gerador_etiquetas.py` is a Tk desktop program. The queue is oldest first
  and a list box is kept parallel to it. PIL draws each label on a
  1181 x 1181 px canvas and reportlab writes the pages.

This project models the logic of both: the queue with its guarded add,
remove and form reset; the export loops that turn the queue (or the form)
into one full-page image per item, in queue order; the empty-value
fallbacks; the file names; and the integer layout of the desktop label.

Files and modules:

- `wrappers.dfy` — `Wrappers.Option`.
- `label_text.dfy` — `LabelText`: the fallbacks both programs share. An
  empty value gets the QR payload `" "` and the caption `"Aguardando..."`.
- `label_app.dfy` — `LabelApp`, the model of `App.tsx`. The class `App`
  holds the state the page keeps with `useState`. The class `JsPdf` is the
  jsPDF document: it starts with one blank page, `AddPage` appends a page
  and `AddImage` draws on the last page. The rasterizer is a parameter
  `raster`: an arbitrary function from a label card and the capture options
  to an image.
- `gerador_etiquetas.dfy` — `GeradorEtiquetas`, the model of
  `gerador_etiquetas.py`. The class `GeradorEtiquetasApp` holds the list,
  the list box lines, the two entries and the preview. The class `Canvas`
  is the reportlab canvas. A label image is the record of its layout.

What the proofs establish, in short:

- Web add is ignored when either field trims to nothing. Otherwise the new
  record becomes the head of the queue and the form is cleared.
- Web remove keeps exactly the records with another id, in order. It is
  idempotent, and it undoes an add whose id was fresh.
- Web batch export changes no state. It yields nothing for an empty queue.
  Otherwise it yields one 100 x 100 portrait page per item, in queue order,
  each holding only that item's image at (0, 0, 100, 100). A page is
  allocated only for items after the first.
- The desktop program keeps its list and its list box parallel across add
  and remove. Add appends at the end and checks only for empty strings.
  Remove with a selection drops exactly that index.
- Desktop `create_pdf` emits one page per item, in order. The two save
  actions are guarded by their emptiness checks and by the save dialog.
- On the 1181 px canvas both 400 x 400 QR boxes lie inside the canvas and do
  not overlap. Every text anchor is inside, and each caption anchor lies below its
  box. The password heading is anchored exactly on the top edge of its QR
  box, because the 40 px raise (`sub_offset=-40`) is not applied to the
  heading. The layout record says where things are, not what is painted
  over what (see "## Left out").

Two behaviours of the code are worth stating:

- The individual web export (`handleDownloadIndividual`, App.tsx:90-94)
  checks only that the preview is mounted. Empty fields are kept out only by
  the disabled button. `HandleDownloadIndividual` therefore exports whatever
  the form holds.
- Ids are not unique by construction. Web ids come from `crypto.randomUUID`
  and desktop ids are the first eight characters of a UUID. The ids are
  parameters here and nothing claims they are unique.

## Model

| member | source | states |
|---|---|---|
| `LabelText.QrPayload` | App.tsx:32-40 | the QR payload is never empty, and is the field value whenever that is non-empty |
| `LabelText.Caption` | App.tsx:34-42 | the caption is never empty, and is the field value whenever that is non-empty |
| `LabelText.RecoverInverts` | gerador_etiquetas.py:113-120 | the payload and caption fallbacks together lose nothing: the field value can be read back from them |
| `LabelText.FallbacksInjective` | gerador_etiquetas.py:113-120 | two field values with the same payload and caption are equal |
| `LabelApp.TrimStart` | App.tsx:57 | the result is a suffix of the input, everything dropped is JavaScript whitespace, and it does not start with whitespace |
| `LabelApp.TrimEnd` | App.tsx:57 | the result is a prefix of the input, everything dropped is whitespace, and it does not end with whitespace |
| `LabelApp.Trim` | App.tsx:57 | `s.trim()` keeps only characters of `s`; it is empty exactly when `s` is whitespace only; otherwise it neither starts nor ends with whitespace |
| `LabelApp.IsJsWhitespace` | App.tsx:57 | the character set `trim` removes (ECMAScript WhiteSpace and LineTerminator): space, tab and the line ends are in it, no visible ASCII character is |
| `LabelApp.TrimEmptyIffBlank` | App.tsx:57 | the `!x.trim()` test: trimming both ends leaves the empty string exactly when every character of the value is whitespace (`Blank`), so the guard written with `Blank` is the guard written with `trim` |
| `LabelApp.RemoveId` | App.tsx:72 | `filter(item => item.id !== id)`: a record is kept exactly when it was there and carries another id |
| `LabelApp.RemoveIdConcat` | App.tsx:72 | removal distributes over concatenation, so the kept records stay in their original order |
| `LabelApp.RemoveIdAbsent` | App.tsx:72 | removing an id no record carries leaves the queue equal |
| `LabelApp.RemoveIdIdempotent` | App.tsx:72 | removing the same id twice equals removing it once |
| `LabelApp.RemoveFreshHead` | App.tsx:59-72 | removing the id of a freshly prepended record whose id was new restores the old queue |
| `LabelApp.LabelCard` | App.tsx:23-46 | both QR payloads are non-empty, both QR codes have size 130, and each half's payload and caption determine the value typed |
| `LabelApp.LabelCardInjective` | App.tsx:23-46 | two cards with the same extra class are equal only for equal username and password |
| `LabelApp.JsPdf.constructor` | App.tsx:99 | a new jsPDF document has exactly one blank page of the given format |
| `LabelApp.JsPdf.AddPage` | App.tsx:119 | `addPage` appends one blank page and leaves the others as they were |
| `LabelApp.JsPdf.AddImage` | App.tsx:121 | `addImage` adds the placement to the last page only |
| `LabelApp.JsPdf.Save` | App.tsx:87 | `pdf.save(filename)` hands over every page of the document, in order, under that name; a valid document hands over at least one page |
| `LabelApp.RenderedPagesShape` | App.tsx:106-123 | a batch document has one page per item; page k is 100 x 100 portrait and holds only item k's image at (0, 0, 100, 100) |
| `LabelApp.RenderedPagesSnoc` | App.tsx:106-123 | one more item appends exactly one page, its own, at the end |
| `LabelApp.DecimalString` | App.tsx:125 | the timestamp text is a non-empty string of decimal digits without a leading zero |
| `LabelApp.DecimalRoundTrip` | App.tsx:125 | the timestamp text reads back as the timestamp |
| `LabelApp.IndividualFilename` | App.tsx:92 | the name is `etiqueta-` + the username + `.pdf`, or `etiqueta-credencial.pdf` for an empty username |
| `LabelApp.BatchFilename` | App.tsx:125 | the name is `lote-etiquetas-10x10-` + digits + `.pdf`, and the digits read back as the timestamp |
| `LabelApp.GeneratePdf` | App.tsx:75-88 | the document has one 100 x 100 portrait page holding the captured element at (0, 0, 100, 100), saved under the given name |
| `LabelApp.App.constructor` | App.tsx:51-53 | the form starts with both fields empty and the queue empty |
| `LabelApp.App.SetUsername` | App.tsx:164 | typing sets the username field and nothing else |
| `LabelApp.App.SetPassword` | App.tsx:180 | typing sets the password field and nothing else |
| `LabelApp.App.HandleAddToBatch` | App.tsx:56-69 | if either field trims to empty, nothing changes; otherwise the untrimmed pair with the given id and time is prepended, and both fields become empty |
| `LabelApp.App.RemoveFromBatch` | App.tsx:71-73 | the queue becomes the filtered queue; the form is untouched |
| `LabelApp.App.Preview` | App.tsx:225-230 | the on-screen card carries the `shadow-2xl` class, both its QR payloads are non-empty, and its payloads and captions recover the username and password in the form |
| `LabelApp.App.HandleDownloadIndividual` | App.tsx:90-94 | a download exists exactly when the preview is mounted; it is one full-bleed page of the preview card, named from the username |
| `LabelApp.App.HandleDownloadBatch` | App.tsx:96-127 | no download exactly when the queue is empty; otherwise one full-bleed page per queued item, in queue order, under the timestamped name; the state is not modified |
| `LabelApp.TwoAddsThenExport` | App.tsx:56-127 | after two adds the queue is newest first, the export has two pages with the newer pair first, and the queue is the same after the export |
| `GeradorEtiquetas.GenerateLabelImage` | gerador_etiquetas.py:93-130 | both 400 x 400 QR boxes lie inside the 1181 px canvas, centred on the headings, the user box above the password box; all anchors are inside; each caption is below its box; the password heading sits on its box's top edge; payloads are non-empty and recover the values |
| `GeradorEtiquetas.AddQrSection` | gerador_etiquetas.py:107-121 | one block: the heading at `y_offset`, a 400 x 400 QR box whose top is 40 px plus the raise below the heading, the caption 20 px under the box, all centred on the canvas axis; the payload is non-empty and payload and caption recover the text |
| `GeradorEtiquetas.Canvas.constructor` | gerador_etiquetas.py:183 | a new canvas has no finished page and an empty page in progress |
| `GeradorEtiquetas.Canvas.DrawImage` | gerador_etiquetas.py:190 | `drawImage` adds the drawing to the page in progress only |
| `GeradorEtiquetas.Canvas.ShowPage` | gerador_etiquetas.py:191 | `showPage` finishes the page in progress and starts an empty one |
| `GeradorEtiquetas.Canvas.Saved` | gerador_etiquetas.py:196 | `c.save()` writes the finished pages in order, then the page in progress if anything is drawn on it, under the canvas path and page size |
| `GeradorEtiquetas.LabelPagesShape` | gerador_etiquetas.py:185-196 | one page per item; page k holds only item k's label image, drawn over the whole 100 x 100 mm page |
| `GeradorEtiquetas.LabelPagesSnoc` | gerador_etiquetas.py:185-196 | one more item appends exactly its page at the end |
| `GeradorEtiquetas.ShortId` | gerador_etiquetas.py:149 | the id is the first eight characters of the UUID text, or all of it when shorter |
| `GeradorEtiquetas.ListEntry` | gerador_etiquetas.py:151 | the list box line is the user name, then ` (`, then the id, then `)` |
| `GeradorEtiquetas.GeradorEtiquetasApp.constructor` | gerador_etiquetas.py:12-21 | the queue, the list box and the entries start empty, and the preview shows the empty label |
| `GeradorEtiquetas.GeradorEtiquetasApp.UpdatePreview` | gerador_etiquetas.py:132-140 | the preview becomes the label image of the current entries |
| `GeradorEtiquetas.GeradorEtiquetasApp.EditEntries` | gerador_etiquetas.py:50-55 | after typing, the entries hold the new text, the preview follows them, and the queue and list box are unchanged |
| `GeradorEtiquetas.GeradorEtiquetasApp.AddToBatch` | gerador_etiquetas.py:142-155 | warns and changes nothing exactly when an entry is the empty string; otherwise appends the item and its list box line at the end, clears the entries, and keeps the two lists parallel |
| `GeradorEtiquetas.GeradorEtiquetasApp.RemoveFromBatch` | gerador_etiquetas.py:157-162 | no selection changes nothing; otherwise index `selection[0]` leaves both lists, the rest keep their order, and the lists stay parallel |
| `GeradorEtiquetas.GeradorEtiquetasApp.CreatePdf` | gerador_etiquetas.py:181-196 | the file at `path` has 100 x 100 mm pages, one per item, in list order |
| `GeradorEtiquetas.GeradorEtiquetasApp.SaveIndividual` | gerador_etiquetas.py:164-172 | a file exists exactly when both entries are non-empty and a path was chosen; it has one page with the entries' label |
| `GeradorEtiquetas.GeradorEtiquetasApp.SaveBatch` | gerador_etiquetas.py:174-179 | a file exists exactly when the queue is non-empty and a path was chosen; it has one page per queued item, in queue order |

## Left out

- React rendering, the JSX markup and styling (App.tsx:129-290), and the `useState`/`useRef` mechanics. The state is kept as fields of `App`.
- The offscreen container and the per-item React root (App.tsx:100-104, 108, 122, 126). This is DOM plumbing; each item's card goes straight to the rasterizer.
- The 150 ms settling delay and `async`/`await` (App.tsx:111-114). Each export is a plain sequential method.
- html2canvas, jsPDF internals, PNG data URLs, the QR encoders, PIL drawing and fonts. These are foreign libraries. Images are values of an arbitrary type that `raster` (web) produces, or layout records (desktop).
- `crypto.randomUUID`, `uuid.uuid4` and `Date.now`. They are nondeterministic, so they are parameters.
- LabelApp.DecimalString: covers non-negative integer timestamps only. JavaScript's exponent notation for numbers of 10^21 and above, and timestamps before 1970, are not modelled.
- The disabled-button conditions (App.tsx:192, 200, 212). They are UI gating; the handlers are modelled without them.
- LabelApp.App.HandleAddToBatch: the guard is written with `Blank` (whitespace only) rather than by calling `Trim`. `Trim`'s contract proves the two are equal.
- Tk widget construction in `setup_ui`, except its initial preview (gerador_etiquetas.py:23-91).
- Message boxes (gerador_etiquetas.py:146, 172, 179). The warning of `add_to_batch` is modelled as the result `warned`; the two success messages are not.
- The save dialog (gerador_etiquetas.py:169, 176). The chosen path is a parameter, and the empty string means cancelled.
- Temporary PNG files and `os.remove` (gerador_etiquetas.py:187-194). This is file I/O; the image is drawn directly.
- The on-screen preview downscaling with LANCZOS (gerador_etiquetas.py:138). This is image numerics; `preview` holds the full-size layout.
- GeradorEtiquetas.GeradorEtiquetasApp.CreatePdf: lengths are in millimetres. reportlab's conversion to points (`100*mm`, a float) is not modelled.
- GeradorEtiquetas.Canvas.Saved: assumes reportlab's `save` emits the page in progress only when something is drawn on it.
- GeradorEtiquetas.GenerateLabelImage: paint order and glyph extents are not modelled; the image is a layout record of anchors and boxes. In the source the heading is drawn before the QR image is pasted (gerador_etiquetas.py:109, 117), and the password heading is centred on the top row of its pasted box, so the paste covers the lower half of "SENHA". Likewise the user caption is centred at (590, 610), 10 px above the password box's paste at y = 620, which is drawn later (gerador_etiquetas.py:117, 128), so the white border of that QR image covers the bottom of the username text. "Each caption lies below its box" is about anchors only.
- Failures of the foreign calls. html2canvas (App.tsx:77, 116), PIL's `img.save` (gerador_etiquetas.py:188) and reportlab's `c.save` (gerador_etiquetas.py:196) are treated as total, so every export in the model completes. In the source a rejected capture in the middle of a batch saves nothing and leaves the offscreen container attached (App.tsx:126 is not reached), and an unwritable path makes `create_pdf` raise, with no file and no success message. The QR encoders' capacity limit is among these failures: LabelApp.LabelCard and GeradorEtiquetas.GenerateLabelImage are total, but a field value longer than the largest QR code holds makes the encoder fail. On the web, qrcode.react at level H (about 1273 bytes, App.tsx:32, 40) throws while rendering, and with no error boundary the page unmounts and the queue is lost. On the desktop, `make(fit=True)` at level M (about 2331 bytes, gerador_etiquetas.py:112-114) raises `DataOverflowError`: `update_preview` fails in the key-release callback and the preview goes stale, so the preview invariant of `GeradorEtiquetasApp.Valid` is not what the program keeps; `add_to_batch` still queues the item (gerador_etiquetas.py:145-155); and a later `save_individual` or `save_batch` raises in `create_pdf` (gerador_etiquetas.py:186) with no file and no message, where `SaveIndividual` and `SaveBatch` promise a file.
- The Tk list box's own selection state. `curselection()` is passed to `RemoveFromBatch` as a list of valid indices.
