# PandaStore invoice generator — a Dafny model

This project models the core of the PandaStore invoice generator in Dafny and proves properties of the model. The generator is a small form application. It builds an invoice from catalog products and client details, and can fill the client details from pasted text through an AI service. It then renders a one-page A4 invoice.

The model has three parts, one per source file:

- **The renderer** (`generate_pdf_file`), in `pdf_generator.dfy`, module `PdfGenerator`.
  - Each section of the page is a method that returns the drawing commands it issues, in order:
    - the header with the logo;
    - the shop block and the client block;
    - the note box;
    - the totals column.
  - The product table is built by a loop, as in the source. It adds one row per item and accumulates the subtotal.
  - `GeneratePdf` puts the page together.
  - The typesetting library measures heights and decodes images. Those results come in as inputs: a `Measurements` record and an image `Decoder`.
- **The form's session state** (`main.py`), in `invoice_session.dfy`, module `InvoiceApp`.
  - It is a class `InvoiceSession` with three fields: the line items, the client record and the invoice number.
  - Its methods are the form's actions: add an item, delete an item, autocomplete through the AI, write the client fields back, and generate.
- **The AI client-extraction service** (`parse_client_info`), in `gemini_service.dfy`, module `GeminiService`.
  - It models the API-key guard, the cleaning of the model's reply and the error records.
  - The model's reply and the JSON decoder are inputs.

Shared pieces:

- `invoice.dfy` (`Invoice`): the invoice record, line items and money arithmetic.
- `store_constants.dfy` (`StoreConstants`): the shop constants.
- `text.dfy` (`Text`): the Python string operations the code relies on (`strip`, `replace`, `upper`, `str`), with their properties.

Modelling choices:

- Money is `real`. Totals are exact.
- The page is A4 at its exact size of 75600/127 by 106920/127 points.

Two facts about the code that are easy to misread:

- The comment at pdf_generator.py:185-187 says the column widths sum exactly to `CONTENT_WIDTH`. They sum to 515, while `CONTENT_WIDTH` on exact A4 is 515.28… points. `GridAlignment` proves the sum is strictly less, so the table stays inside the margins.
- pdf_generator.py:117 always upper-cases the client's name, including the default "Cliente General".

## Model

| member | source | states |
|---|---|---|
| Text.Strip | gemini_service.py:56 | `strip()` leaves no whitespace at either end, never lengthens the text, and yields empty exactly for all-whitespace text; `StripMeaning` states that it removes exactly the surrounding whitespace |
| Text.StripMeaning | main.py:169 | the input is a run of whitespace, then the stripped text, then a run of whitespace: `strip()` removes exactly the surrounding whitespace and nothing else |
| Text.StripUnchanged | gemini_service.py:56 | text that neither starts nor ends with whitespace is returned unchanged |
| Text.ReplaceAll | gemini_service.py:56 | `replace(pat, rep)` scans left to right and replaces each non-overlapping occurrence; it has no contract of its own, and `ReplaceAbsent`, `FenceRemovalComplete`, `ReplaceCharRemoves` and `ReplaceCharPointwise` state its properties |
| Text.ReplaceAbsent | gemini_service.py:56 | replacing a pattern that does not occur leaves the text unchanged |
| Text.FenceRemovalComplete | gemini_service.py:56 | after removing every "```", no "```" remains, even where removal brings backticks together |
| Text.ReplaceCharRemoves | pdf_generator.py:226 | replacing a character by text that lacks it leaves no occurrence of the character |
| Text.ReplaceCharPointwise | main.py:169 | replacing one character by another keeps the length, changes exactly the matching positions and keeps every other character |
| Text.Upper | pdf_generator.py:117 | `upper()` keeps the length; it turns each of `a`-`z` into the letter 32 code points below (`A`-`Z`); it keeps every character outside its ASCII and Latin-1 mapping (`UpperMapped`); no lower-case ASCII letter is left |
| Text.IntToString | pdf_generator.py:179 | `str(n)` is non-empty and starts with '-' exactly for negative numbers |
| Text.IntToStringRoundTrip | pdf_generator.py:179 | the quantity cell `str(quantity)` is all digits after an optional minus sign, which appears exactly for negative numbers, and parses back to the quantity |
| Invoice.SubtotalAppend | pdf_generator.py:156-160 | the running subtotal of a concatenation is the sum of the parts' subtotals |
| Invoice.SubtotalRemove | main.py:137-139 | removing the line at `i` lowers the subtotal by exactly that line's `priceCordobas * quantity` |
| Invoice.SubtotalPositive | main.py:148 | lines with a quantity of at least 1 and a positive price add up to a positive subtotal |
| Invoice.LineTotal | pdf_generator.py:159 | a line of zero units costs nothing; a line of at least one unit at a non-negative price costs at least its unit price |
| Invoice.Subtotal | main.py:148 | the sum of `priceCordobas * quantity` over the lines, accumulated in order like `total_amount += sub` at pdf_generator.py:158-160; it has no contract of its own, and `SubtotalAppend`, `SubtotalRemove` and `SubtotalPositive` state its properties |
| Invoice.GrandTotal | pdf_generator.py:252 | the grand total exceeds the subtotal by shipping minus discount; it is negative exactly when the discount exceeds subtotal plus shipping, since nothing clamps it |
| Invoice.ExampleInvoiceTotals | main.py:148-151 | two bands at C$ 1000 with C$ 50 shipping give a subtotal of 2000 and a total of 2050 |
| PdfGenerator.GridAlignment | pdf_generator.py:24-27 | the right block, the logo box and the totals column all end at `width - MARGIN`; there are 5 headers and 5 column widths; the widths sum to 515, less than `CONTENT_WIDTH`, so a table drawn at `MARGIN` stays inside the right margin |
| PdfGenerator.Thumbnail | pdf_generator.py:165-175 | an image is added exactly when the bytes are present, decode, and have a non-zero height; it is then 45 points tall and keeps the image's aspect ratio |
| PdfGenerator.ArticleContent | pdf_generator.py:162-175 | the article cell holds the bold description, then the thumbnail when there is one, and only the description otherwise (the failed-decode `except: pass`) |
| PdfGenerator.ItemRow | pdf_generator.py:177-183 | an item row has one cell per column width, and its last column holds the line total |
| PdfGenerator.TableRows | pdf_generator.py:153-183 | the header row, then one `ItemRow` per item in item order; it has no contract of its own, and `TableShape` and `LineTotalsAddUp` state its properties |
| PdfGenerator.TableShape | pdf_generator.py:153-188 | the table has one row more than there are items; row 0 holds the five headers; row `k+1` is built from `items[k]`; every row has one cell per column width |
| PdfGenerator.ItemRowCells | pdf_generator.py:159-183 | an item row starts with the bold description; the cell holds two pieces when there is a thumbnail (the second being the thumbnail) and only the description otherwise; the quantity cell is `str(quantity)`; the last cell is the line's `priceCordobas * quantity` |
| PdfGenerator.LineTotalsAddUp | pdf_generator.py:156-183 | the amounts in the last column of the item rows add up to the subtotal |
| PdfGenerator.BuildRow | pdf_generator.py:159-183 | one loop pass yields the item's row and the same amount `sub` that its last cell shows |
| PdfGenerator.BuildTable | pdf_generator.py:153-183 | the loop yields exactly the header row plus one row per item, in item order, and a total equal to the sum of the line totals (0 for no items) |
| PdfGenerator.DrawHeader | pdf_generator.py:37-62 | the title, number and date are drawn at their fixed places; the logo is drawn exactly when logo bytes are present and decode, as a 120 x 80 box whose right edge is `width - MARGIN` |
| PdfGenerator.DrawStoreBlock | pdf_generator.py:67-96 | the left block is a `HALF_WIDTH` x 145 box at `MARGIN`; it holds the shop's name, each address line 12 points under the previous one, then the email and phone; every line starts inside the box |
| PdfGenerator.ShowsTransport | pdf_generator.py:135 | the transport part is drawn exactly when the record has a `transportProvider` key with a non-empty value |
| PdfGenerator.DrawClientBlock | pdf_generator.py:98-148 | the right block has the same bottom and height as the left one; it holds the "Facturado a:" title 20 points under the block top, then the upper-cased name (default "Cliente General") 40 points under the block top, the address paragraph and the phone below it at offsets that grow with the address height; the caption and the transport tag appear exactly for a non-empty provider; the tag lies within the block's width, its bottom at `BlocksTop - 85 - addressHeight` (so a tall address pushes it below the block), with the provider centred in it; no image is drawn |
| PdfGenerator.DefaultNameUpper | pdf_generator.py:117 | a client without a name is shown as "CLIENTE GENERAL" |
| PdfGenerator.TableY | pdf_generator.py:212-214 | the definition of `y_table`: the table's bottom edge, placed so that its top is 40 points under the blocks whatever its measured height; `GeneratePdf`'s ensures that notes and totals lie below the table rests on it |
| PdfGenerator.SectionTop | pdf_generator.py:222 | the definition of `y_section`, 20 points under the table's bottom edge; `GeneratePdf`'s ensures that notes and totals lie below the table rests on it |
| PdfGenerator.DrawNote | pdf_generator.py:225-247 | nothing is drawn for an empty note; otherwise a box at `MARGIN`, `HALF_WIDTH` wide, hanging from the section top, `max(h_text + 25, 60)` tall, whose text has every line break replaced by `<br/>` and lies inside the box |
| PdfGenerator.DrawTotals | pdf_generator.py:250-283 | subtotal, shipping, discount and grand total are right-aligned at `width - MARGIN`, at 10, 28, 46 and 71 points under the section top; the labels "Monto", "Delivery", "Descuentos" and "Total (C$)" are right-aligned 100 points further left at the same heights, and every label is at that x; everything lies below the section top |
| PdfGenerator.GeneratePdf | pdf_generator.py:18-283 | the header shows the invoice number and date; both blocks are drawn, and the client block shows the upper-cased name, the address and the phone; the table holds the header plus the item rows and sits 40 points under the blocks; the subtotal is recomputed from the items, and the grand total is subtotal + shipping − discount; subtotal, shipping, discount and grand total are printed at their offsets; the logo appears exactly when it decodes, the transport tag exactly for a non-empty provider, and the note box exactly for a non-empty note; notes and totals lie below the table |
| GeminiService.ErrorRecord | gemini_service.py:19 | every failure returns a record whose only key is "error" |
| GeminiService.HasKey | gemini_service.py:16-17 | the key counts as present when it is set and non-empty (Python truthiness); a predicate without a contract, used by `ParseClientInfo` and `MissingKeyIgnoresModel` |
| GeminiService.RemoveFences | gemini_service.py:56 | `replace("```", "")` leaves no "```" |
| GeminiService.CleanResponse | gemini_service.py:54-57 | the cleaned reply holds no "```" and has no leading or trailing whitespace |
| GeminiService.CleanResponseUnchanged | gemini_service.py:56 | text with no fence and no surrounding whitespace is returned unchanged |
| GeminiService.CleanResponseIdempotent | gemini_service.py:56 | cleaning is idempotent |
| GeminiService.ParseClientInfo | gemini_service.py:15-64 | a missing or empty key gives the missing-key error; an exception gives "Fallo en el servicio de IA: " plus its text; an empty reply gives its own error; otherwise the result is the decoded object of the cleaned reply, or the failure error when decoding fails; any result other than a lone "error" key is the decoded cleaned reply |
| GeminiService.MissingKeyIgnoresModel | gemini_service.py:16-19 | without a key the result depends neither on the model nor on the decoder, and is a lone "error" record |
| GeminiService.DecoderSeesCleanedText | gemini_service.py:56-57 | two non-empty replies that clean to the same text give the same result |
| InvoiceApp.NewItem | main.py:114-120 | the appended line keeps the product, quantity, price and image, and its dollar price times the exchange rate is the córdoba price |
| InvoiceApp.ApplyForm | main.py:79-81 | the update sets exactly the four form keys to the form's values; every other key keeps its value and no key is lost |
| InvoiceApp.SafeName | main.py:169 | the safe name is the stripped full name with each space turned into '_' and every other character kept; it holds no space |
| InvoiceApp.OutputFilename | main.py:170 | `f"factura_{consecutive}_{safe_name}.pdf"`; it has no contract of its own, and `OutputFilenameShape` takes it apart |
| InvoiceApp.FilenameFor | main.py:169-170 | the file name uses the record's `fullName` when the key is there, and "Cliente" when it is not |
| InvoiceApp.OutputFilenameShape | main.py:169-170 | the file name is "factura_", the number, "_", the safe name, then ".pdf"; it holds a space only if the invoice number does |
| InvoiceApp.InvoiceSession.constructor | main.py:16-21 | a new session has no items, the four client keys set to empty, and number "A001197" |
| InvoiceApp.InvoiceSession.SetConsecutive | main.py:49 | the number field sets the number and nothing else |
| InvoiceApp.InvoiceSession.Autocomplete | main.py:56-65 | the service is asked only for non-blank text; the client record is replaced exactly when the result is non-empty and has no "error" key, and stays unchanged otherwise; a rejection reports the "error" value, or none |
| InvoiceApp.InvoiceSession.UpdateClientFields | main.py:79-81 | the client record becomes the old one updated with the four form fields; items and number are unchanged |
| InvoiceApp.InvoiceSession.AddItem | main.py:106-123 | a price of zero or less changes nothing; otherwise exactly one line is appended at the end with the given quantity and the derived dollar price, and the earlier lines stay as they were; the item invariant is kept |
| InvoiceApp.InvoiceSession.DeleteItem | main.py:137-139 | deleting index `i` removes exactly that line and keeps the order of the rest; the item invariant is kept |
| InvoiceApp.InvoiceSession.DisplayedTotal | main.py:148-151 | the displayed total plus the discount is the items' subtotal plus shipping; for a valid non-empty invoice it is positive whenever the discount is not larger than the shipping |
| InvoiceApp.InvoiceSession.InvoiceData | main.py:155-167 | an empty item list is refused; otherwise the record carries the session's number, client record and items, and the given date, shipping, discount and note, unchanged |
| InvoiceApp.InvoiceSession.Generate | main.py:155-174 | nothing is generated for an empty invoice; otherwise the file name is built from the number and the client's name, the table holds the session's items, the renderer's subtotal and grand total equal the subtotal and total the form computes (main.py:148, 151), and the page shows the session's number and the client's name in capitals |
| InvoiceApp.DeleteAdjustsSubtotal | main.py:137-148 | after a delete, the list is one shorter, keeps the other lines in order, and its subtotal drops by the deleted line's total |
| InvoiceApp.AddAdjustsSubtotal | main.py:121-148 | after an append, the subtotal rises by the new line's total |
| InvoiceApp.ValidSubtotalPositive | main.py:95-148 | lines that passed the quantity widget and the price guard add up to a positive subtotal, so only a large discount makes the total negative |

## Left out

- Typesetting is taken as input: ReportLab's font metrics, `Paragraph.wrap`, `Table.wrapOn`/`_height`, `drawOn` and image decoding. Heights arrive in `Measurements`. Decoding is a `Decoder` function that gives the pixel size or failure.
- Fonts, colours and the table style commands (pdf_generator.py:192-209) are not modelled. They carry no logic.
- `c.save()`, the file write and the download button are not modelled.
- The "Error PDF" path (main.py:172-179) is not modelled. Its `try` wraps both `generate_pdf_file` and the file read, so it catches any failure while rendering as well as while saving or reading the file.
- PdfGenerator.GeneratePdf: always yields a page, so exceptions raised while rendering are not modelled. One example: `Paragraph` parses its text as markup, and the address, the descriptions and the note go in unescaped (pdf_generator.py:122, 162, 226-227), so a stray `<` or `&` can make it raise.
- The static footer (pdf_generator.py:285-314) is not modelled. It is constant text at fixed places.
- PdfGenerator.DrawHeader: the logo is modelled as the 120 x 80 box `drawImage` is given. The fitting inside it (`preserveAspectRatio`) is ReportLab's and is left out.
- Amounts are exact reals.
  - IEEE float rounding is not modelled.
  - Neither is the `:,.2f` text. An amount is drawn as `Amount(prefix, value)`.
  - `priceDollars` is the exact quotient `price / 36.6243`.
- Text.Upper: covers ASCII and Latin-1 only, one character in and one out. Python also maps `ß` to "SS" and handles letters beyond Latin-1, which the model does not.
- The Streamlit interface is not modelled: widgets, `st.rerun`, messages, the sidebar, the logo file read from disk, the download button, the date widget (the date is a string input) and the dollar preview caption (main.py:100-101).
- InvoiceApp.InvoiceSession.AddItem: requires a catalog product and a quantity of at least 1. The select box and the number widget (main.py:92-95) guarantee both.
- The Gemini call is an input, `ModelReply`: `genai.configure`, the model name, the prompt and `generate_content` (gemini_service.py:23-51). Any exception they raise is the `Raised` case.
- `json.loads` is an input, `JsonDecoder`. It yields an object of string fields or a failure. JSON values that are not string-to-string objects (lists, numbers, nested objects) are not modelled.
- The `print` calls are logging and are not modelled. `check_models.py` only lists remote models and is not part of this model.
