# Facture: a Dafny model of the invoice designer's core

Facture is an invoice designer. In the browser, a user fills in an invoice model or drops
components (text, separators, a pager, dates, item tables, summaries, images) onto a canvas.
The server rebuilds an `Invoice` from the JSON the browser sends and draws it onto one A4 page
with pdf-lib.

This project models that core in Dafny:

- **Server side**
  - `Invoice` (models/Invoice.js): the record built from the wire payload with its defaults, line items, image slots, totals, validation and `toJSON`.
  - `ImageProcessor` (services/ImageProcessor.js): validation of `data:` URLs, image-type detection from MIME names and magic bytes, and embedding with a PNG-then-JPEG fallback.
  - `Geometry`: `calculatePosition` and `hexToRgb`. `hexToRgb` includes a faithful `parseInt(…, 16)`.
  - `Renderer` (services/PDFGenerator.js): the `InvoiceRenderer` class, whose `page` field is the sequence of drawing calls that went through.
- **Browser side**
  - `ClientModel`: the observable `InvoiceModel`.
  - `ComponentLibrary`: the component catalogue and demo data.
  - `ComponentManagement`: the canvas `ComponentManager` with its records, selection, drag, resize and size dialog.
  - `ClientController`: the two controller paths that move data between the canvas and the model. `updateModelFromComponent`/`storeComponentData` push edits into the model. `savePDF` collects the components that are sent.

Shared modules:

- `Wrappers`: Option and Result.
- `Js`: JavaScript values, truthiness, `parseFloat` as a parameter, and the string built-ins the source uses (`includes`, `startsWith`, first-occurrence `replace`, `split`/`join`, `replace(/\n/g, " ")`).
- `Payload`: the wire shapes shared by browser and server.
- `Draw`: drawing calls, and the prefix of a call list drawn before the first call that throws.

How the model treats throwing calls:

- **Renderer.** A drawing call may throw, for example on a glyph the font cannot encode. This is modelled by a fault oracle, `env.faults: DrawOp -> Option<string>`.
  - A section wrapped in its own try/catch appends exactly `UntilFault(ops, faults)`: the calls made before the first throw.
  - The page border and the empty-state text sit directly in `render`'s try. A throw there reaches the top-level catch. That catch draws one red error line, and `render` itself throws if that line throws too.
- **Embedding.** pdf-lib's embedders and base64 decoding are parameters. An embedder that throws returns `None`.

Behaviour of the code worth knowing:

- `hexToRgb` returns black only for strings that are not 7 characters long or are empty. For non-hex digits of the right length, `parseInt` yields NaN channels rather than black (`Geometry.HexToRgbNotHex`).
- The 50 MiB limit is enforced only by `validateImage`. The embed path never calls it, so an oversized PNG still embeds (`ImageProcessor.EmbedIgnoresSizeLimit`).
- The SVG sniff is a substring test on the hex text of the first 8 bytes. It also fires across byte boundaries, for example on bytes that contain no `<svg` (`ImageProcessor.ClassifySvgOffByNibble`).
- The server's `Invoice` constructor keeps the request's items as plain objects. Only `addItem` builds `InvoiceItem`s, which have `getTotal` and `toJSON`.
  - For a request with items, `getTotal` throws on the first row, so the PDF shows only the table's five headers and its rule, and no totals block (`Renderer.ConstructedTableHeadersOnly`).
  - `calculateSubtotal`, `calculateTax`, `calculateTotal` and `toJSON` throw on such an invoice (`Invoice.ConstructedCannotTotal`).
- The constructor never copies `components`, and it reads the image slots from top-level keys. So a `toJSON` round trip keeps everything except the images, and its items come back as plain records that cannot be totalled (`Invoice.JsonRoundTrip`).
- The server's controller hands the constructor the request's images nested under `images` (controllers/InvoiceController.js:42) and no `components`, while the constructor reads the image slots from top-level keys. So on the request path the server serves, no image section and no custom component is ever drawn.
- A constructed invoice always has an invoice number, so the empty-state message is never drawn for one (`Renderer.ConstructedNeverEmpty`).
- The empty-state message is drawn after the sections, on the same page. It does not replace them.
- An issue date that is missing moves the due date up into its line.

## Model

| member | source | states |
|---|---|---|
| Js.DivNum | services/PDFGenerator.js:453-467 | division of a JS number by a non-zero constant: NaN stays NaN, and a finite quotient times the divisor gives back the dividend |
| Js.NumberOr | models/Invoice.js:84-85 | `parseFloat(x) \|\| fallback`: the parsed value when it is a non-zero number, the fallback when parsing fails or gives 0 |
| Js.TextOr | public/js/controllers/InvoiceController.js:308-328 | `text \|\| fallback`: a non-empty text is kept, an empty one gives the fallback, so the result is empty only if the fallback is |
| Js.IndexOf | public/js/services/ComponentManager.js:185-199 | `indexOf`: a found index is the first place the pattern matches; None means it matches nowhere |
| Js.StartsWithIncludes | services/ImageProcessor.js:38 | a string that starts with a pattern includes it at index 0 |
| Js.ReplaceFirstAtStart | services/PDFGenerator.js:140 | `replace` with a string pattern replaces the first occurrence: one at the start is swapped for the replacement |
| Js.NewlinesToSpaces | services/PDFGenerator.js:587 | `replace(/\n/g, " ")`: same length, no newline left, every other character kept in place |
| Js.Split | services/ImageProcessor.js:61 | `split(c)`: at least one part, exactly one when `c` does not occur, and no part contains `c` |
| Js.JoinSplit | public/js/controllers/InvoiceController.js:516 | joining the parts of a split with the separator gives back the string |
| Js.SplitJoin | public/js/controllers/InvoiceController.js:516 | splitting a join of separator-free parts gives back the parts |
| Payload.ParseKind | services/PDFGenerator.js:103-203 | the `type` string read as a component kind writes back as the same string; unknown names are kept as Unknown |
| Payload.ParseKindName | services/PDFGenerator.js:103-203 | every known kind survives being written as its name and read back |
| Payload.BareComponent | public/js/controllers/InvoiceController.js:357-365 | a pushed record carries its id, type, position and size, and every type-specific field is empty |
| Draw.UntilFault | services/PDFGenerator.js:469-495 | the calls a try block makes before its first throw: a prefix of the calls, none of them throwing, and the next one throws |
| Draw.FirstFault | services/PDFGenerator.js:46-89 | the error a call list raises: none exactly when no call throws, otherwise the error of the first call not drawn |
| Draw.UntilFaultExact | services/PDFGenerator.js:469-495 | a section draws all its calls exactly when none of them throws |
| Draw.UntilFaultAppend | services/PDFGenerator.js:469-495 | running two call lists in one try: the second runs only if the first completes |
| Draw.NoFaultAppend | services/PDFGenerator.js:469-495 | two call lists run without a throw exactly when each does |
| Invoice.NewLineItem | models/Invoice.js:81-86 | an item keeps description and details, and quantity and price are `parseFloat` or 0 |
| Invoice.ValidateItemExactly | models/Invoice.js:92-107 | an item is valid exactly when quantity and price are non-negative; each error message appears exactly when its check fails; at most two errors |
| Invoice.SlotOf | models/Invoice.js:120-127 | an image slot is filled exactly when its data-URL string is non-empty, and holds that string |
| Invoice.NewImages | models/Invoice.js:120-139 | `hasLogo`/`hasSignature`/`hasWatermark` hold exactly when the input strings are non-empty; opacity 0 or unparsable becomes 10 |
| Invoice.Construct | models/Invoice.js:2-20 | the constructor's defaults: model "light", font "Helvetica", number "INV-001", today and the due date; tax rate copied; items kept as the request's plain records; components never copied |
| Invoice.BuiltPrefix | models/Invoice.js:30-32 | how far a loop calling `getTotal` on each entry gets: every entry before it is an `InvoiceItem`, and the entry at it (if any) is a plain record |
| Invoice.ConstructedCannotTotal | models/Invoice.js:2-32 | a freshly constructed invoice can compute its subtotal, and produce its JSON, exactly when the request had no items |
| Invoice.ItemJsonReadsBack | models/Invoice.js:80-116 | an item's `toJSON` record, given to `new InvoiceItem`, builds the same item |
| Invoice.SpliceOne | models/Invoice.js:26-28 | `splice(index, 1)`: removes the indexed item, counts a negative index from the end, and removes nothing past the end |
| Invoice.ToJson | models/Invoice.js:57-77 | `toJSON` succeeds exactly when every entry is an `InvoiceItem`, and then carries each item's record, the images and the tax rate |
| Invoice.JsonRoundTrip | models/Invoice.js:2-77 | rebuilding a constructed invoice from its own JSON gives it back with empty image slots, opacity 10 and its items as plain records; the rebuilt invoice can total only without items |
| Invoice.Invoice.constructor | models/Invoice.js:2-20 | the new object's fields are those of `Construct` |
| Invoice.Invoice.AddItem | models/Invoice.js:22-24 | appends one new `InvoiceItem` and changes nothing else |
| Invoice.Invoice.RemoveItem | models/Invoice.js:26-28 | removes by `splice` and changes nothing else |
| Invoice.SumAppend | models/Invoice.js:30-32 | the subtotal of concatenated item lists is the sum of their subtotals |
| Invoice.SubtotalAddItem | models/Invoice.js:22-32 | adding an item raises the subtotal by that item's total, and leaves a throwing subtotal throwing; no items gives 0 |
| Invoice.SubtotalRemoveItem | models/Invoice.js:26-32 | removing entry `i` lowers a subtotal by that item's total; afterwards the subtotal is defined exactly when every other entry is an `InvoiceItem` |
| Invoice.TotalIsScaledSubtotal | models/Invoice.js:30-40 | subtotal, tax and total throw together; otherwise total = subtotal × (1 + rate/100) and total − subtotal = tax, and with a non-negative rate and subtotal, total ≥ subtotal |
| Invoice.SubtotalNonNegative | models/Invoice.js:30-32 | items with non-negative quantity and price have a non-negative subtotal |
| Invoice.ValidateExactly | models/Invoice.js:42-55 | the invoice is valid exactly when the tax rate is non-negative, and the one error is the tax-rate message |
| ImageProcessor.ValidateImageAccepts | services/ImageProcessor.js:29-47 | an image is accepted exactly when it is a string that starts with "data:" and is at most 50 MiB long |
| ImageProcessor.ValidateImageOrder | services/ImageProcessor.js:29-47 | the four rejections and their messages, in the order the checks run |
| ImageProcessor.ProcessImageFollowsValidation | services/ImageProcessor.js:7-27 | processing succeeds exactly when validation accepts, returns the data unchanged, and reports the validation error otherwise |
| ImageProcessor.HexUpper | services/ImageProcessor.js:63 | the upper-case hex text of bytes is two characters per byte |
| ImageProcessor.HexUpperPrefix | services/ImageProcessor.js:63-66 | the hex text starts with the hex of `p` exactly when the bytes start with `p` |
| ImageProcessor.HexByteInjective | services/ImageProcessor.js:63 | different bytes have different hex pairs |
| ImageProcessor.SignaturesInHex | services/ImageProcessor.js:65-66 | the PNG and JPEG markers written in hex are the constants the classifier tests for |
| ImageProcessor.HeaderPrefix | services/ImageProcessor.js:63-66 | the hex header of the first 8 bytes starts with a marker of at most 8 bytes exactly when the bytes do |
| ImageProcessor.ClassifyPng | services/ImageProcessor.js:63-69 | bytes are sniffed as PNG exactly when they start with 89 50 4E 47 |
| ImageProcessor.ClassifyJpeg | services/ImageProcessor.js:63-69 | bytes are sniffed as JPEG exactly when they start with FF D8 FF |
| ImageProcessor.ClassifySvgBytes | services/ImageProcessor.js:67 | bytes starting with "<svg" are sniffed as SVG |
| ImageProcessor.ClassifySvgOffByNibble | services/ImageProcessor.js:67 | the bytes 03 C7 37 66 70 contain no "<svg", yet they are sniffed as SVG |
| ImageProcessor.DetectMimeFirst | services/ImageProcessor.js:55-70 | a MIME name in the URL decides the type before and independently of any decoded byte |
| ImageProcessor.EmbedNullCases | services/ImageProcessor.js:72-105 | missing or non-string data, an empty payload and SVG all embed as nothing |
| ImageProcessor.EmbedDispatch | services/ImageProcessor.js:72-105 | without a MIME name: PNG bytes go to `embedPng`, JPEG bytes to `embedJpg`; unknown bytes embed if either embedder accepts them, PNG first |
| ImageProcessor.EmbedNoCommaNoMime | services/ImageProcessor.js:55-105 | without a comma or a MIME name, detection throws and the embed yields nothing |
| ImageProcessor.EmbedIgnoresSizeLimit | services/ImageProcessor.js:29-105 | a PNG URL over 50 MiB is rejected by validation yet still embeds |
| Geometry.CalculatePositionDefault | services/PDFGenerator.js:434-451 | an absent element, an absent or zero value, or an unknown property gives the default |
| Geometry.CalculatePositionPercent | services/PDFGenerator.js:434-451 | x is the percentage of the width, y the percentage of the height measured from the top, and size the percentage over 50 |
| Geometry.CalculatePositionOnPage | services/PDFGenerator.js:434-451 | percentages between 0 and 100 keep x and y on the page |
| Geometry.CalculatePositionCentre | services/PDFGenerator.js:434-451 | a logo at 50 %/50 % on a 595 × 842 page sits at (297.5, 421) |
| Geometry.TrimStart | services/PDFGenerator.js:453-467 | `parseInt` skips leading white space: a suffix of the input that does not start with white space |
| Geometry.HexRun | services/PDFGenerator.js:453-467 | the longest prefix of hex digits that `parseInt` reads |
| Geometry.ParseIntHexPair | services/PDFGenerator.js:453-467 | two hex digits parse to 16·high + low, between 0 and 255 |
| Geometry.ParseIntHexNoDigit | services/PDFGenerator.js:453-467 | text with no leading hex digit parses to NaN |
| Geometry.HexToRgbInRange | services/PDFGenerator.js:453-467 | a `#RRGGBB` colour gives channels in [0, 1], each its two digits over 255 |
| Geometry.HexToRgbWrongLength | services/PDFGenerator.js:453-467 | a string that is not 7 long gives black |
| Geometry.HexToRgbDefault | services/PDFGenerator.js:453-467 | the default colour "#000000" parses to black, the same colour as the fallback |
| Geometry.HexToRgbNotHex | services/PDFGenerator.js:453-467 | "#zzzzzz" gives NaN in all three channels, not black |
| Geometry.HexToRgbSigned | services/PDFGenerator.js:453-467 | `parseInt` accepts a sign: "#-1ffff" has a red channel of −1/255 |
| Geometry.HexToRgbOfBytes | services/PDFGenerator.js:453-467 | a colour written from three bytes reads back as those bytes over 255 |
| Renderer.FitWidth | services/PDFGenerator.js:481 | `Math.min(cap, width) * size`: the image's own width times the size when it fits under the cap, the cap times the size otherwise, and at most cap × size for a non-negative size |
| Renderer.GetFont | services/PDFGenerator.js:417-432 | Times for "Times New Roman", Courier for "Courier New", Helvetica for every other name |
| Renderer.ItemRowsLayout | services/PDFGenerator.js:677-762 | the first item row is 30 points below the headers and each further row 40 below the one before; every call of a row is a text or a stripe at one of the header columns' x, and a stripe ends where the header rule ends |
| Renderer.CustomRowsLayout | services/PDFGenerator.js:205-283 | a custom table's first row is 25 points below its headers and each further row 25 below the one before; the five cells of a row share its baseline and sit `ColumnOffset` right of the anchor |
| Renderer.LineColorDefault | services/PDFGenerator.js:125-137 | a separator's colour is its own colour, or black when it has none |
| Renderer.InvoiceRenderer.constructor | services/PDFGenerator.js:39-44 | a new renderer has drawn nothing |
| Renderer.InvoiceRenderer.Draw | services/PDFGenerator.js:46-89 | one drawing call: it is on the page exactly when it does not throw, and its error is reported |
| Renderer.InvoiceRenderer.RenderPageBorder | services/PDFGenerator.js:404-415 | draws the light-gray border 10 points inside the page, and reports whether it threw |
| Renderer.InvoiceRenderer.RenderWatermark | services/PDFGenerator.js:469-495 | draws the watermark's calls up to the first throw: only for an image that embeds, centred at its position, width `FitWidth` of 80 % of the page (so at most that times a non-negative size), opacity/100 |
| Renderer.InvoiceRenderer.RenderHeader | services/PDFGenerator.js:497-521 | draws the header image's calls up to the first throw, centred, hanging from its y |
| Renderer.InvoiceRenderer.RenderModel | services/PDFGenerator.js:523-552 | draws the model decoration up to the first throw: a framed border for "boxed", a 50-point top band for "bold", nothing otherwise |
| Renderer.InvoiceRenderer.RenderLogo | services/PDFGenerator.js:554-578 | draws the logo up to the first throw, width `FitWidth` of 100 points (so at most 100 times a non-negative size) |
| Renderer.InvoiceRenderer.RenderCompanyDetails | services/PDFGenerator.js:580-599 | draws the company details up to the first throw, newlines flattened and wrapped at 200 points |
| Renderer.InvoiceRenderer.RenderClientDetails | services/PDFGenerator.js:601-620 | draws the client details up to the first throw, as for the company |
| Renderer.InvoiceRenderer.RenderInvoiceTitle | services/PDFGenerator.js:622-640 | draws the title call, unless it throws |
| Renderer.InvoiceRenderer.RenderDates | services/PDFGenerator.js:642-672 | draws the two date lines up to the first throw, 15 points apart, each only when its date is present |
| Renderer.InvoiceRenderer.RenderItemsTable | services/PDFGenerator.js:674-767 | draws the header, divider and item rows up to the first throw anywhere in the table; a plain record's missing `getTotal` throws before its row draws |
| Renderer.InvoiceRenderer.RenderItemRow | services/PDFGenerator.js:701-762 | draws one item row's calls up to the first throw, and reports whether it threw |
| Renderer.InvoiceRenderer.RenderSummary | services/PDFGenerator.js:769-837 | draws subtotal, tax, divider and total up to the first throw; nothing without items or when a plain record makes the totals throw |
| Renderer.InvoiceRenderer.RenderFooter | services/PDFGenerator.js:839-904 | draws the footer image, payment info, footer number and slogan up to the first throw in any of them |
| Renderer.InvoiceRenderer.RenderSignature | services/PDFGenerator.js:906-930 | draws the signature up to the first throw, width `FitWidth` of 150 points (so at most 150 times a non-negative size) |
| Renderer.InvoiceRenderer.RenderEmptyState | services/PDFGenerator.js:385-402 | draws the two empty-state lines up to the first throw and reports that throw |
| Renderer.InvoiceRenderer.RenderComponents | services/PDFGenerator.js:91-101 | each component is drawn up to its own first throw, in list order |
| Renderer.InvoiceRenderer.RenderComponent | services/PDFGenerator.js:103-203 | one component drawn at its position measured from the top, (50, 50) when it has none |
| Renderer.InvoiceRenderer.RenderText | services/PDFGenerator.js:111-124 | a text or invoice-data component draws its content, unless that throws |
| Renderer.InvoiceRenderer.RenderSeparator | services/PDFGenerator.js:125-137 | a separator draws one line of its width, thickness and colour, unless that throws |
| Renderer.InvoiceRenderer.RenderPager | services/PDFGenerator.js:138-150 | a pager draws its format with `{page}` and `{total}` shown as 1, unless that throws |
| Renderer.InvoiceRenderer.RenderComponentDates | services/PDFGenerator.js:165-184 | a dates component draws its two lines up to the first throw |
| Renderer.InvoiceRenderer.RenderCustomTable | services/PDFGenerator.js:205-283 | a table component draws its header, divider and rows up to the first throw |
| Renderer.InvoiceRenderer.RenderCustomRow | services/PDFGenerator.js:235-280 | one custom row's calls up to the first throw, and whether it threw |
| Renderer.InvoiceRenderer.RenderCustomSummary | services/PDFGenerator.js:285-349 | a summary component draws its three amounts and divider up to the first throw |
| Renderer.InvoiceRenderer.RenderCustomImage | services/PDFGenerator.js:351-369 | an image component draws its embedded image at its size, unless it does not embed or the call throws |
| Renderer.InvoiceRenderer.RenderError | services/PDFGenerator.js:76-88 | the top-level catch: one red error line, or `render` throws when that line throws |
| Renderer.InvoiceRenderer.Render | services/PDFGenerator.js:46-89 | the whole page is `Rendered`: border, guarded sections in order, custom components, then the empty state or the error line |
| Renderer.UntilFaultNever | services/PDFGenerator.js:46-89 | with nothing throwing, every section draws all its calls |
| Renderer.RenderNoFault | services/PDFGenerator.js:46-89 | with nothing throwing, the page is the border, every section's calls in order, then the empty state for an empty invoice, and `render` completes |
| Renderer.RenderBorderFault | services/PDFGenerator.js:46-89 | when the border throws, nothing else is drawn but the red error line, and `render` throws if that line throws too |
| Renderer.RenderBorderFirst | services/PDFGenerator.js:46-89 | when the border does not throw it is the first call, and a non-empty invoice always completes |
| Renderer.ClosingKeepsBody | services/PDFGenerator.js:46-89 | whatever the closing step does, the calls drawn before it stay on the page |
| Renderer.ConstructedNeverEmpty | services/PDFGenerator.js:371-383 | an invoice built by the constructor is never empty, so it never shows the empty state |
| Renderer.NoItemsNoTable | services/PDFGenerator.js:674-837 | the items table draws nothing exactly when there are no items; the summary draws nothing exactly when there are no items or some entry is a plain record |
| Renderer.ItemRowShape | services/PDFGenerator.js:701-762 | a row starts with the item's description at x = 50, and it has a background band exactly for the odd rows of the "striped" model |
| Renderer.SummaryAddsUp | services/PDFGenerator.js:769-837 | a drawn summary has seven calls, and the total shown is the subtotal shown plus the tax shown |
| Renderer.ConstructedTableHeadersOnly | services/PDFGenerator.js:674-837 | for an invoice from the constructor with items, the table is exactly five header texts and the rule, and no totals are drawn |
| Renderer.CustomColumns | services/PDFGenerator.js:205-283 | custom table columns start at 0, 200, 250, 320 and 370 for a total width of 440, and each row cell sits under its header |
| Renderer.ComponentsDrawnAppend | services/PDFGenerator.js:91-101 | drawing two lists of components draws the first and then the second |
| Renderer.ComponentIsolated | services/PDFGenerator.js:91-101 | a component that throws loses only its own remaining calls; the components before and after it are drawn unchanged |
| Renderer.ComponentAnchor | services/PDFGenerator.js:103-203 | a component is drawn at (x, height − y), at (50, height − 50) without a position, and a component of unknown type draws nothing |
| Renderer.TextComponentAt | services/PDFGenerator.js:103-123 | a placed text component with content makes exactly one call, which draws its content at (x, height − y) in size 10, black, wrapped at its own width (200 without a size or with width 0) with a line height of 15; an empty one draws nothing |
| ComponentLibrary.Lookup | public/js/services/ComponentLibraryService.js:187-189 | a key lookup finds a value exactly when the key is listed, and the value is listed with that key |
| ComponentLibrary.FindCategory | public/js/services/ComponentLibraryService.js:180-185 | a found category has the requested id; none means no category has it |
| ComponentLibrary.GetAllComponents | public/js/services/ComponentLibraryService.js:191-193 | every catalogue entry, in catalogue order |
| ComponentLibrary.GetDemoData | public/js/services/ComponentLibraryService.js:195-197 | demo data for a field is its entry when that entry is truthy, and nothing otherwise |
| ComponentLibrary.TableIdsMatchKeys | public/js/services/ComponentLibraryService.js:37-150 | every component definition's id is its catalogue key |
| ComponentLibrary.LookupResolves | public/js/services/ComponentLibraryService.js:187-189 | every catalogued id resolves to the definition with that id |
| ComponentLibrary.CategoriesListTableKeys | public/js/services/ComponentLibraryService.js:9-35 | every component a category lists is in the catalogue |
| ComponentLibrary.ComponentsByCategory | public/js/services/ComponentLibraryService.js:180-185 | only "basic" and "invoice" list components, and each listed id resolves to its definition, in the category's order |
| ComponentLibrary.DemoArticlesConsistent | public/js/services/ComponentLibraryService.js:152-174 | each demo article's total is its quantity times its unit price |
| ComponentLibrary.DemoAmountsConsistent | public/js/services/ComponentLibraryService.js:152-174 | the demo amounts are the articles' subtotal 1875, 20 % tax 375 and total 2250 |
| ComponentLibrary.DemoMissing | public/js/services/ComponentLibraryService.js:195-197 | a field without demo data gets nothing |
| ComponentLibrary.DataFieldsWithoutDemo | public/js/services/ComponentLibraryService.js:37-197 | which catalogue data fields have no demo data |
| ComponentManagement.Trunc | public/js/services/ComponentManager.js:207-220 | `parseInt` of "<n>px" truncates toward zero: a whole number, between 0 and the value and less than 1 away from it |
| ComponentManagement.ResizeBounds | public/js/services/ComponentManager.js:160-231 | a resize never goes below 50 × 30; without a west or north edge, width and height are the dragged size clamped to those minimums |
| ComponentManagement.HandleClassHasEastAndSouth | public/js/services/ComponentManager.js:185-199 | every handle class starts with "resize-", which contains an "e" and an "s", so the east and south branches run for every handle |
| ComponentManagement.HandlesStartWithResize | public/js/services/ComponentManager.js:132-141 | every handle's class starts with "resize-" |
| ComponentManagement.DragPoint | public/js/services/ComponentManager.js:233-288 | a drag ends at the moved point, with each coordinate clamped at 0 |
| ComponentManagement.StoredClamps | public/js/services/ComponentManager.js:207-283 | the stored pixel values after a resize or drag keep the minimum size and stay non-negative |
| ComponentManagement.RowTotal | public/js/services/ComponentManager.js:638-643 | a row's total is quantity × price, or 0 when either does not parse |
| ComponentManagement.SummaryAmounts | public/js/services/ComponentManager.js:669-678 | tax = subtotal × rate/100 and total = subtotal × (1 + rate/100); an unparsable subtotal gives 0 and 0 |
| ComponentManagement.RemoveKey | public/js/services/ComponentManager.js:321-338 | removing an id keeps exactly the other ids |
| ComponentManagement.RemoveKeyDistinct | public/js/services/ComponentManager.js:321-338 | removing an id keeps distinct ids distinct |
| ComponentManagement.RemoveKeyAbsent | public/js/services/ComponentManager.js:321-338 | removing an id that is not there changes nothing |
| ComponentManagement.ComponentManager.constructor | public/js/services/ComponentManager.js:2-11 | no components, no selection, and the empty-canvas placeholder shown |
| ComponentManagement.ComponentManager.HasComponents | public/js/services/ComponentManager.js:974-976 | there are components exactly when the placeholder is hidden |
| ComponentManagement.ComponentManager.GetActiveComponents | public/js/services/ComponentManager.js:970-972 | the ids of exactly the stored records, each once |
| ComponentManagement.ComponentManager.AddComponent | public/js/services/ComponentManager.js:23-67 | stores the record at (50, 50 + 60n), 200 × 60, appends a new id, hides the placeholder and keeps the selection |
| ComponentManagement.ComponentManager.UpdateComponentSize | public/js/services/ComponentManager.js:290-297 | sets the size of a stored record only |
| ComponentManagement.ComponentManager.SelectComponent | public/js/services/ComponentManager.js:299-309 | selects a stored component, or only deselects for an unknown id |
| ComponentManagement.ComponentManager.DeselectComponent | public/js/services/ComponentManager.js:311-319 | clears the selection, except an empty id, which is falsy and is left as it is |
| ComponentManagement.ComponentManager.RemoveComponent | public/js/services/ComponentManager.js:321-338 | drops the record and its id, shows the placeholder when none are left, and keeps the selection |
| ComponentManagement.ComponentManager.FinishResize | public/js/services/ComponentManager.js:160-231 | stores the truncated box of the resize |
| ComponentManagement.ComponentManager.FinishDrag | public/js/services/ComponentManager.js:233-288 | stores the truncated, clamped position of the drag (with no mousemove the source stores the unclamped start, which is the same point while stored positions are non-negative) |
| ComponentManagement.ComponentManager.ApplySizeDialog | public/js/services/ComponentManager.js:404-414 | the dialog applies exactly when both values parse and are at least 50 and 30 |
| ClientModel.Initial | public/js/models/InvoiceModel.js:2-42 | the initial data: model "light", font "Lato", black colours, 15 % tax, no items, today and the due date |
| ClientModel.NewClientItem | public/js/models/InvoiceModel.js:194-199 | a browser item: quantity `parseFloat` or 1, never 0; price `parseFloat` or 0 |
| ClientModel.ValidateClientItemExactly | public/js/models/InvoiceModel.js:205-224 | valid exactly with a description, quantity > 0 and price ≥ 0; each message exactly when its check fails |
| ClientModel.ValidColorRenders | public/js/models/InvoiceModel.js:160-162 | every colour the model accepts converts to channels in [0, 1] |
| ClientModel.IsValidColorExamples | public/js/models/InvoiceModel.js:160-162 | `#` followed by exactly six hex digits of either case, and nothing else |
| ClientModel.WithImage | public/js/models/InvoiceModel.js:132-138 | writes one image slot and keeps the others and the opacity |
| ClientModel.WithPosition | public/js/models/InvoiceModel.js:140-146 | sets one property of one element, creating the element's entry when needed, and keeps every other entry |
| ClientModel.TotalsExactly | public/js/models/InvoiceModel.js:148-158 | total = subtotal × (1 + rate/100), 0 without items, and adding an item adds its total |
| ClientModel.ValidateExactly | public/js/models/InvoiceModel.js:164-183 | valid exactly with a number, company details and at least one item; the item message exactly without items |
| ClientModel.Deliveries | public/js/models/InvoiceModel.js:52-59 | a notification reaches each observer with that notice |
| ClientModel.DeliveriesAppend | public/js/models/InvoiceModel.js:52-59 | notifying a concatenation notifies the first list, then the second |
| ClientModel.DeliveriesAddObserver | public/js/models/InvoiceModel.js:44-59 | an added observer is notified last |
| ClientModel.Without | public/js/models/InvoiceModel.js:48-50 | removing an observer keeps exactly the observers with another id |
| ClientModel.WithoutAppend | public/js/models/InvoiceModel.js:48-50 | removal distributes over concatenation |
| ClientModel.RemovedNotNotified | public/js/models/InvoiceModel.js:48-59 | a removed observer receives no later notification |
| ClientModel.InitialGuarded | public/js/models/InvoiceModel.js:2-42 | the initial data satisfies the model's invariants: valid model name, valid colours, non-negative tax |
| ClientModel.InvoiceModel.constructor | public/js/models/InvoiceModel.js:2-42 | starts from the initial data, with no observers and nothing delivered |
| ClientModel.InvoiceModel.AddObserver | public/js/models/InvoiceModel.js:44-46 | appends the observer and changes nothing else |
| ClientModel.InvoiceModel.RemoveObserver | public/js/models/InvoiceModel.js:48-50 | removes every observer with that id |
| ClientModel.InvoiceModel.NotifyObservers | public/js/models/InvoiceModel.js:52-59 | delivers the notice to every observer, in order |
| ClientModel.InvoiceModel.SetModel | public/js/models/InvoiceModel.js:61-67 | sets and announces one of the four model names, and ignores any other |
| ClientModel.InvoiceModel.SetFont | public/js/models/InvoiceModel.js:69-72 | sets and announces the font |
| ClientModel.InvoiceModel.SetPrimaryColor | public/js/models/InvoiceModel.js:74-79 | sets and announces a valid colour, and ignores an invalid one |
| ClientModel.InvoiceModel.SetSecondaryColor | public/js/models/InvoiceModel.js:81-86 | sets and announces a valid colour, and ignores an invalid one |
| ClientModel.InvoiceModel.SetCompanyDetails | public/js/models/InvoiceModel.js:88-91 | sets and announces the company details |
| ClientModel.InvoiceModel.SetClientDetails | public/js/models/InvoiceModel.js:93-96 | sets and announces the client details |
| ClientModel.InvoiceModel.SetInvoiceNumber | public/js/models/InvoiceModel.js:98-101 | sets and announces the invoice number |
| ClientModel.InvoiceModel.SetTaxRate | public/js/models/InvoiceModel.js:103-109 | sets and announces a rate that parses to a non-negative number, and ignores anything else |
| ClientModel.InvoiceModel.AddItem | public/js/models/InvoiceModel.js:111-116 | appends the new item and announces the item list |
| ClientModel.InvoiceModel.RemoveItem | public/js/models/InvoiceModel.js:118-123 | removes and announces an in-range item, and ignores an index out of range |
| ClientModel.InvoiceModel.UpdateItem | public/js/models/InvoiceModel.js:125-130 | applies the edit to an in-range item and announces it, and ignores an index out of range |
| ClientModel.InvoiceModel.SetImage | public/js/models/InvoiceModel.js:132-138 | writes and announces one of the five image slots, and ignores any other key |
| ClientModel.InvoiceModel.SetPosition | public/js/models/InvoiceModel.js:140-146 | sets and announces one position property |
| ClientModel.RemoveItemExactly | public/js/models/InvoiceModel.js:118-123 | removal keeps the items before, shifts those after, and lowers the subtotal by the removed item's total |
| ClientModel.OpacityNotASlot | public/js/models/InvoiceModel.js:132-138 | the opacity key is not an image slot |
| ClientController.ImageTypeIsSlot | public/js/controllers/InvoiceController.js:401-410 | exactly the five upload components map to an image type, and each type is a model image slot |
| ClientController.WithText | public/js/controllers/InvoiceController.js:309-328 | a text component's id sets its own field only; every other field is unchanged |
| ClientController.FindIndex | public/js/controllers/InvoiceController.js:347-348 | `find` by id, as an index: a found index holds that id; none means no record has it |
| ClientController.WithFormData | public/js/controllers/InvoiceController.js:368-392 | each type takes its own fields from the edit (text and invoice data the text, a separator its thickness and colour, a pager its format, a table its rows, a summary its totals, an image its data) and no other field changes; id, type, geometry and dates are kept, and invoice dates or an unknown type are left as they were |
| ClientController.Placed | public/js/controllers/InvoiceController.js:394-398 | the manager's position and size overwrite the record's when the manager has the component, and nothing else changes |
| ClientController.StoreUnknownUnchanged | public/js/controllers/InvoiceController.js:353-355 | an id that is neither stored nor catalogued leaves the list unchanged |
| ClientController.StoreFindOrAppend | public/js/controllers/InvoiceController.js:342-399 | storing touches only the record with that id, or appends one for a catalogued id; ids stay unique and every other record is kept |
| ClientController.StoreNewDefaults | public/js/controllers/InvoiceController.js:357-365 | an appended record starts at (50, 50), 200 × 60, with the catalogue's type |
| ClientController.UpdatedFields | public/js/controllers/InvoiceController.js:308-340 | an edit sets the component's text field and its upload slot, keeps every other field, and leaves a component list in place |
| ClientController.Controller.constructor | public/js/controllers/InvoiceController.js:308-340 | holds the given model and manager |
| ClientController.Controller.StoreComponentData | public/js/controllers/InvoiceController.js:342-399 | the model's component list becomes the list with this edit stored, and no observer is notified |
| ClientController.Controller.ForwardText | public/js/controllers/InvoiceController.js:309-328 | the text goes to the matching setter, which notifies, or to the matching field, which does not |
| ClientController.Controller.ForwardUpload | public/js/controllers/InvoiceController.js:330-336 | an uploaded image goes to `setImage` for its slot |
| ClientController.Controller.UpdateModelFromComponent | public/js/controllers/InvoiceController.js:308-340 | the whole edit: text, then upload, then storage; the new data is `Updated`, and exactly the setters' notifications are delivered |
| ClientController.PagerRoundTrip | public/js/controllers/InvoiceController.js:530-534 | for each of the three pager formats, reading back the text the canvas shows gives the format |
| ClientController.DefaultFormatRoundTrip | public/js/controllers/InvoiceController.js:530-534 | "Page {page} sur {total}" survives display and read-back |
| ClientController.SlashFormatRoundTrip | public/js/controllers/InvoiceController.js:530-534 | "{page}/{total}" survives display and read-back |
| ClientController.PageOnlyFormatRoundTrip | public/js/controllers/InvoiceController.js:530-534 | "Page {page}" survives display and read-back |
| ClientController.DatesRoundTrip | public/js/controllers/InvoiceController.js:514-525 | dates without newlines, shown as the dates block's two lines, are read back unchanged |
| ClientController.ForPdf | public/js/controllers/InvoiceController.js:493-586 | each component sent carries its id, type, position and size; text and invoice data send the displayed text, a pager the format read from its text, invoice dates the dates extracted from them; no thickness, colour, rows, totals or image is sent, and any other type is sent bare |
| ClientController.CollectComponents | public/js/controllers/InvoiceController.js:493-586 | the loop over the canvas gives exactly the specified collection, or fails where the source throws |
| ClientController.CollectAppend | public/js/controllers/InvoiceController.js:493-586 | collecting two runs of components is collecting the first, then the second from where the first left off |
| ClientController.CollectPlain | public/js/controllers/InvoiceController.js:493-586 | without a dates block, collection appends one plain record per component to those already built and keeps the dates |
| ClientController.CollectWithoutDates | public/js/controllers/InvoiceController.js:493-586 | without a dates block, collection succeeds, keeps the dates, and sends one record per component in canvas order |
| ClientController.NoDatesBlockSendsEmpty | public/js/controllers/InvoiceController.js:489-590 | without a dates block, the invoice is sent with empty dates and one record per component |
| ClientController.LastDatesBlockWins | public/js/controllers/InvoiceController.js:514-525 | when several dates blocks exist, the last one decides the dates sent |
| ClientController.PagerSentWithItsFormat | public/js/controllers/InvoiceController.js:530-534 | a pager is sent with the format it shows |

## Left out

- DOM rendering, event listeners and edit dialogs, the context menu, `loadDemoData`, `testServerConnection`, notifications and logging. These are browser plumbing around the modelled state.
- Mouse-move events during a drag or resize. Only the final box at mouse-up is modelled (`FinishDrag`, `FinishResize`).
- The Express server controller, request parsing, the fallback "simple" PDF and the serialised PDF bytes. Only the drawing calls on the page are modelled. The controller's request items reach the `Invoice` constructor as plain objects, which is what `Invoice.Construct` receives.
- Geometry.CalculatePosition, ClientModel.WithPosition: position values are numbers. The source runs `parseFloat` on whatever JSON value arrived, and a truthy value that does not parse (such as "abc") gives NaN coordinates; that path is not modelled.
- ClientModel.InvoiceModel.UpdateItem: `updateItem` assigns any property name; the model has the four item properties only.
- ClientModel.InvoiceModel.SetTaxRate: `parseFloat("Infinity")` passes the check in the source; rates are reals here, so an infinite rate is not represented.
- Geometry.HexToRgb, ImageProcessor.ValidateImage, Renderer.FooterOps: string lengths count characters, while JavaScript's `.length` counts UTF-16 code units. A string holding a character outside the Basic Multilingual Plane is therefore measured shorter here than in the source. For example, "#ab😀cd" has length 7 in JavaScript, so the source parses it as a colour, but it has length 6 here. The same applies to the 50 MiB size limit on images and to the lengths the footer measures.
- pdf-lib internals: font embedding, text measurement and wrapping, and image decoding. These are parameters, or fields of the drawing calls.
- The `toFixed`/`toLocaleString` text of amounts and `toLocaleDateString("fr-FR")`. Amounts are kept as symbolic fixed-point content. Date formatting and the clock are parameters.
- Floating-point rounding. Money and coordinates are reals.
- The observers' own code. A notification is recorded as a delivery to an observer id.
- Lookups in JavaScript objects inherit `Object.prototype` keys such as "constructor". The model's tables contain only their own keys.
- ClientController.CollectComponents: the separator, table, summary and image cases read DOM styles and tables. Those records carry only id, type, position and size.
- ClientController.CollectComponents: `innerText` of the dates block is taken to be the two lines the canvas wrote, without any white-space collapsing by the browser.
- ComponentManagement.ComponentManager.constructor: the empty-canvas placeholder is taken to be visible when the page loads.
