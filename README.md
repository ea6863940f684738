# edx-certificates rendering core, in Dafny

This project models the part of edx-certificates that composes a course certificate:

- **Font choice** (`openedx_certificates/renderers/util.py`): the first font in a preference list whose glyph table covers every character of a string.
- **Text autoscaling** (`util.py`): shrinking a paragraph's size and leading one point at a time until it fits its box.
- **The template interpreter** (`openedx_certificates/renderers/elements.py`): rectangles, lines, images and text paragraphs drawn from attribute dictionaries.
- **The CME renderer** (`openedx_certificates/renderers/cme.py`): fixed-geometry paragraphs.
- **The certificate generator** (`gen_cert.py`):
  - resolution of a course's configuration in the constructor;
  - the certificate date;
  - the Latin-1 and Unicode character checks;
  - the renderer dispatch;
  - the Stanford statement of accomplishment overlay;
  - the v4 programmatic certificate: theme, instructor signature blocks and course information filled from a substitution context;
  - the names and addresses of the verification artifacts.
- **The XQueue client** (`openedx_certificates/queue_xqueue.py`): reply validation, submission parsing, queue length, method addresses, and the pull manager's single login.

ReportLab is modelled as a drawing surface.

- `Drawing.Canvas` keeps the log of calls a method makes: set a line width or colour, draw a rectangle, line, image or paragraph.
- `Drawing.ParagraphStyle` is a class whose fields the source changes in place.
- Measuring a paragraph is a function parameter (`Measurer`).
- Its one assumption, `ShrinksToFit`, is that a paragraph at size and leading 0 or below fits any box that is not negative. Without it the autoscale loop need not end.
- Glyph tables, image sizes, today's date, the calendar formatting of a date, fresh identifiers, and JSON encoding and decoding are all parameters.

Each drawing method records its calls on the canvas. It is proved to append exactly the calls of a pure function (`RectangleDrawn`, `StepsDrawn`, `InstructorsDrawn`, `Overlay`, `V4Drawn` and so on). What is drawn is then proved about those functions as lemmas.

Python's dynamic values are `Values.Value`: None, a boolean, a number or text. Configuration dictionaries map text to them. A Python exception is an `Err` of `Values.Error`, or a `Failed` outcome for a procedure that returns nothing.

Modules follow the source files:

| module | models |
|---|---|
| `FontUtil` | `util.py` |
| `Elements` | `elements.py` |
| `Cme` | `cme.py` |
| `CertConfig` | the constructor, `get_cert_date`, dispatch and artifact names |
| `CertText` | the v4 and Stanford strings |
| `Stanford` | the Stanford overlay |
| `Instructors` | the v4 instructor loop |
| `CertGen` | the `CertificateGen` class |
| `XQueue` | `queue_xqueue.py` |

Shared modules:
- `Values`: dynamic values and errors.
- `TextFormat`: the part of `str.format` the templates use.
- `Drawing`: the drawing surface.

Two behaviours of the code are worth stating plainly:

- **Instructor keys.** Only a text element whose key is absent from the instructor's data is skipped. A text element without a `key` attribute, or an image whose key is missing, raises KeyError (`Instructors.TextPlacement`, `Instructors.ImageFailures`).
- **Flair.** `gen_cert.py:40` imports `draw_flair` from `elements.py`, which does not define it, and `gen_cert.py:850` calls it; see Left out.

## Model

| member | source | states |
|---|---|---|
| FontUtil.FirstCovering | openedx_certificates/renderers/util.py:90-104 | the index found is the first font whose non-empty table holds every code point; none is found only when no font covers the string |
| FontUtil.ChosenFont | openedx_certificates/renderers/util.py:88-104 | an empty string takes the first font of a non-empty list; an empty list gives nothing; otherwise the first covering font |
| FontUtil.FontForString | openedx_certificates/renderers/util.py:71-110 | the loop returns the font at the index FontUtil.ChosenFont picks, a member of the list, or ValueError when it picks none |
| FontUtil.FontChoiceIsFirstFit | openedx_certificates/renderers/util.py:90-110 | for non-empty text the choice succeeds iff some font covers it, and the chosen font covers it while no earlier font does |
| FontUtil.FontChoiceNeverLater | openedx_certificates/renderers/util.py:90-104 | if font k covers the text, the choice is font k or an earlier one |
| FontUtil.FontChoiceHasTable | openedx_certificates/renderers/util.py:92-101 | a font without a glyph table is never chosen for non-empty text |
| FontUtil.FontChoiceFails | openedx_certificates/renderers/util.py:102-110 | an empty list, or a character no font has, makes the choice fail |
| FontUtil.ApplyStyleToFontList | openedx_certificates/renderers/util.py:36-44 | each font keeps its name and file and gets a fresh copy of the style with only the font name changed |
| FontUtil.StyleFor | openedx_certificates/renderers/elements.py:115-118 | the style of the chosen font is the base style with that font's name, and it fails exactly when the font choice fails |
| FontUtil.ChooseStyle | openedx_certificates/renderers/elements.py:115-118 | the method returns a fresh style object equal to StyleFor, or its error |
| FontUtil.FirstFitStep | openedx_certificates/renderers/util.py:60-66 | the number of one-point steps taken is the first at which the paragraph fits, and no earlier step fits |
| FontUtil.FitsAtBound | openedx_certificates/renderers/util.py:60-66 | once size and leading are both at most 0 the paragraph fits, so the loop ends |
| FontUtil.FittedStepIsLargestFit | openedx_certificates/renderers/util.py:54-68 | the result fits, and every larger size tried before it does not |
| FontUtil.FittedStepZeroIffFits | openedx_certificates/renderers/util.py:54-68 | the text keeps its maximum size iff it fits at that size |
| FontUtil.AutoscaleText | openedx_certificates/renderers/util.py:47-68 | the style ends at maximum size minus the fitted step count with leading shifted equally, and the returned paragraph fits the box |
| Elements.TranslateAlignment | openedx_certificates/renderers/elements.py:27-29 | the name is `TA_` followed by the alignment upper-cased |
| Elements.TranslateAlignmentIgnoresCase | openedx_certificates/renderers/elements.py:27-29 | an alignment and its lower-case form translate alike |
| Elements.AlignmentConstant | openedx_certificates/renderers/elements.py:112 | only TA_LEFT, TA_CENTER, TA_RIGHT and TA_JUSTIFY exist; any other name is an AttributeError |
| Elements.AlignmentKeywords | openedx_certificates/renderers/elements.py:103-112 | an alignment name resolves exactly when, upper-cased, it is LEFT, CENTER, RIGHT or JUSTIFY, each to its own constant; any other name, such as 'centre', raises AttributeError naming TA_ and the upper-cased name |
| Elements.StrokeDrawn | openedx_certificates/renderers/elements.py:34-41 | the stroke sets the given width and colour, defaulting to width 1 and black |
| Elements.RectangleDrawnMeaning | openedx_certificates/renderers/elements.py:32-57 | nothing is drawn without stroke or fill; otherwise the last call is the rectangle at the element's x, y, width and height, with the stroke and fill flags |
| Elements.RectangleStyleMeaning | openedx_certificates/renderers/elements.py:33-47 | stroke settings come first and only with a stroke; a fill colour is set only with a fill |
| Elements.RectangleDrawsRectangle | openedx_certificates/renderers/elements.py:32-57 | a rectangle element makes only rectangle calls |
| Elements.LineDrawnMeaning | openedx_certificates/renderers/elements.py:60-75 | without a stroke colour or width nothing is drawn; otherwise the stroke settings, then the line between the element's end points |
| Elements.LineDrawsLine | openedx_certificates/renderers/elements.py:60-75 | a line element makes only line calls |
| Elements.ImageDrawn | openedx_certificates/renderers/elements.py:78-87 | the image file in the template directory is drawn at the element's box; a missing file attribute is a KeyError |
| Elements.ReadTextSettingsMeaning | openedx_certificates/renderers/elements.py:91-105 | the string is formatted with the context when there is one; the defaults are size 12, leading 12, black and left; a missing string is a KeyError |
| Elements.FixedTextY | openedx_certificates/renderers/elements.py:124-127 | a fixed-size paragraph's top edge is the top of its box |
| Elements.AutoscaledTextY | openedx_certificates/renderers/elements.py:121-123 | an autoscaled paragraph is centred in its box, raised by a fifth of its font size |
| Elements.TextParagraphPlaced | openedx_certificates/renderers/elements.py:120-129 | the paragraph drawn has the placement of FixedTextY or AutoscaledTextY, and an autoscaled one fits its box |
| Elements.SettingsDrawnMeaning | openedx_certificates/renderers/elements.py:107-129 | one paragraph is drawn in a listed font that covers the text, or ValueError with nothing drawn when no font covers it |
| Elements.TextDrawnMeaning | openedx_certificates/renderers/elements.py:90-129 | a text element whose settings cannot be read draws nothing and fails; otherwise it draws as its settings say |
| Elements.ElementDrawn | openedx_certificates/renderers/elements.py:140-141 | an element kind outside ELEMENT_OPTIONS raises KeyError and draws nothing |
| Elements.ElementDrawsOwnKind | openedx_certificates/renderers/elements.py:132-141 | every call an element makes is of its own kind |
| Elements.PrefixDrawnDone | gen_cert.py:843-846 | the first n steps complete iff each of them does, and then their calls are the steps' calls in order |
| Elements.PrefixDrawnNext | gen_cert.py:843-846 | one more step appends that step's calls and takes its outcome |
| Elements.PrefixDrawnAfterFailure | gen_cert.py:843-846 | after a failing step nothing more is drawn |
| Elements.DrawRectangle | openedx_certificates/renderers/elements.py:32-57 | the canvas receives exactly RectangleDrawn's calls |
| Elements.DrawLine | openedx_certificates/renderers/elements.py:60-75 | the canvas receives exactly LineDrawn's calls |
| Elements.DrawImageElement | openedx_certificates/renderers/elements.py:78-87 | the canvas receives exactly ImageDrawn's calls |
| Elements.DrawText | openedx_certificates/renderers/elements.py:90-129 | the canvas receives exactly TextDrawn's calls |
| Elements.DrawSettings | openedx_certificates/renderers/elements.py:107-129 | the paragraph for read settings is drawn as SettingsDrawn says |
| Elements.DrawTemplateElement | openedx_certificates/renderers/elements.py:140-141 | the canvas receives exactly ElementDrawn's calls for the element kind |
| Elements.DrawStep | gen_cert.py:844-846 | one step extends the drawn prefix, or ends the whole drawing with its failure |
| Elements.DrawSteps | gen_cert.py:843-846 | drawing a list of steps appends StepsDrawn's calls and stops at the first failure |
| Cme.TagString | openedx_certificates/renderers/cme.py:153-156 | the tag is MD/DO for physicians and AHP otherwise |
| Cme.CreditsString | openedx_certificates/renderers/cme.py:124-133 | no credits sentence without CREDITS; otherwise the sentence for the kind of certificate followed by the credits |
| Cme.CmeRenderer.constructor | openedx_certificates/renderers/cme.py:22-28 | the renderer keeps its configuration, page, colour, fonts and text column |
| Cme.CmeRenderer.DatePlacement | openedx_certificates/renderers/cme.py:30-53 | the date box ends at the right margin, 13 points below the top margin, in 18-point right-aligned text in the chosen font |
| Cme.CmeRenderer.NamePlacement | openedx_certificates/renderers/cme.py:55-81 | the bold name fits the column at most 36 points, centred in the band from 370 to 424 |
| Cme.CmeRenderer.NameKeepsSizeWhenItFits | openedx_certificates/renderers/cme.py:66-78 | the name stays at 36 points iff it fits at 36 points |
| Cme.CmeRenderer.CoursePlacement | openedx_certificates/renderers/cme.py:83-113 | the bold course title fits at most 32 points, centred in a 105.6-point band raised by a fifth of its size |
| Cme.CmeRenderer.CreditsPlacement | openedx_certificates/renderers/cme.py:115-150 | the credits sentence is drawn 175 points up at the margin in 18-point left-aligned text, and nothing is drawn without CREDITS |
| Cme.CmeRenderer.TagPlacement | openedx_certificates/renderers/cme.py:152-171 | the tag ends at the right edge of the column in a 50-point box 53 points up, 10-point right-aligned |
| Cme.CmeRenderer.DrawDateOnPage | openedx_certificates/renderers/cme.py:30-53 | the page receives the date paragraph, or nothing on a font error |
| Cme.CmeRenderer.DrawStudentNameOnPage | openedx_certificates/renderers/cme.py:55-81 | the page receives the autoscaled name paragraph |
| Cme.CmeRenderer.DrawCourseOnPage | openedx_certificates/renderers/cme.py:83-113 | the page receives the autoscaled course paragraph |
| Cme.CmeRenderer.DrawCreditsOnPage | openedx_certificates/renderers/cme.py:115-150 | the page receives the credits paragraph when there are credits, else nothing |
| Cme.CmeRenderer.DrawTagOnPage | openedx_certificates/renderers/cme.py:152-171 | the page receives the tag paragraph |
| Values.Truncate | gen_cert.py:893 | Python's int() on a number truncates toward zero |
| TextFormat.FormatPlain | openedx_certificates/renderers/elements.py:93-94 | text without braces formats to itself |
| TextFormat.FormatPlainPrefix | openedx_certificates/renderers/elements.py:93-94 | plain text before a template is kept as it is |
| TextFormat.FormatField | openedx_certificates/renderers/elements.py:93-94 | a field named in the context is replaced by its value |
| TextFormat.FormatMissingField | openedx_certificates/renderers/elements.py:93-94 | a field missing from the context raises KeyError |
| TextFormat.FormatOneField | openedx_certificates/renderers/elements.py:93-94 | a text with one field formats to the text with the value in the field's place |
| CertConfig.FirstNonEmpty | gen_cert.py:147-149 | the result is the first non-empty candidate, and empty only when all are |
| CertConfig.OrChain | gen_cert.py:147-149 | Python's chained `or` picks the first non-empty candidate |
| CertConfig.ResolveLongOrg | gen_cert.py:147 | the long organisation name: the argument, else LONG_ORG, else the default organisation |
| CertConfig.ResolveLongCourse | gen_cert.py:148 | the long course name: LONG_COURSE, else the argument, else '' |
| CertConfig.ResolveIssuedDate | gen_cert.py:149 | the issue date: the argument, else ISSUED_DATE, else ROLLING, so it is never empty |
| CertConfig.LongNamesPrecedence | gen_cert.py:147-148 | the organisation argument beats the configuration, while the configured course name beats the argument |
| CertConfig.CertDateChoice | gen_cert.py:89-94 | a truthy date from the caller wins, then today for ROLLING, then the configured date |
| CertConfig.GetCertDate | gen_cert.py:76-98 | the formatted date is the caller's, today's for a rolling course, or the configured one |
| CertConfig.CertDateRollingAndFixed | gen_cert.py:89-94 | a fixed course shows the same date every day, a rolling course shows today, and an empty date from the caller counts as none |
| CertConfig.EffectiveTemplate | gen_cert.py:183 | TEMPLATEFILE takes priority over the argument |
| CertConfig.TemplateFileName | gen_cert.py:186-200 | False means no template; a name is taken from the version's template directory; an empty name gives the course's default template |
| CertConfig.TemplateType | gen_cert.py:173-202 | the type is verified iff the template name contains 'verified', else honor |
| CertConfig.RendererFor | gen_cert.py:301-306 | stanford and 4_programmatic select their renderers; any other version is a KeyError |
| CertConfig.DefaultVersionIsV4 | gen_cert.py:172 | a course without VERSION is rendered as a v4 certificate |
| CertConfig.DownloadUrlInjective | gen_cert.py:738-743 | different download identifiers give different download addresses |
| CertConfig.DownloadUrlNamesFile | gen_cert.py:738-743 | the download address ends with the file name |
| CertConfig.VerifyUuid | gen_cert.py:736 | the verification identifier is empty exactly when verification is off |
| CertConfig.VerificationArtifacts | gen_cert.py:328-424 | nothing without a signing key; otherwise the page data, and a KeyError for a template type outside verified and honor |
| CertConfig.VerificationPageNames | gen_cert.py:336-360 | the signature is `<pdf>.sig` in the verification directory, published beside verify.html; the type code is idverified iff the template is verified |
| CertText.TranslatedPrecedence | gen_cert.py:773-783 | the course's translation for its locale wins over the default translation, and a missing text is '' |
| CertText.GradeAchievementEmptyIffPass | gen_cert.py:786-790 | the grade line is empty for no grade or a pass in any case; otherwise it ends with two line breaks |
| CertText.GradeShownInTemplate | gen_cert.py:789-790 | the grade is shown in bold in the `{grade}` field of the grade text |
| CertText.FirstDesignation | gen_cert.py:795-806 | the group found is the first whose titles hold the designation, and none is found only when no group does |
| CertText.FindDesignation | gen_cert.py:795-806 | the search loop finds the group FirstDesignation names |
| CertText.WithDesignationMeaning | gen_cert.py:793-806 | a matching group sets the tag, the credits and the description and appends the designation to the name unless it is Other or None; CREDITS missing is a KeyError; without a match nothing changes |
| CertText.Disclaimer | gen_cert.py:809-811 | a course with HAS_DISCLAIMER prints no disclaimer |
| CertText.VerifyTextMeaning | gen_cert.py:814-827 | without verification the sentence is empty; with it the link fills `{verify_link}` |
| CertText.V4Context | gen_cert.py:830-840 | the context has exactly the nine keys, holding the name, tag, date and course title given |
| CertText.ContextFieldsResolve | gen_cert.py:906-908 | every context key can be used as a field in course information text |
| CertText.UnicodeIsNonLatin | gen_cert.py:446-465 | a string that needs the Unicode font is not Latin-1 either |
| CertText.StanfordInterstitialMeaning | gen_cert.py:623-637 | the grade's interstitial is printed in bold between spaces when configured, else a single space |
| CertText.AuthenticityTemplateFilled | gen_cert.py:643-653 | formatting the source's authenticity template with the certificate label, the verification URL, the S3 verification path and the verification uuid succeeds and gives the sentence the overlay draws |
| Stanford.BaseStyle | gen_cert.py:532-551 | the Stanford styles are ReportLab defaults with leading 10 and their font |
| Stanford.Styled | gen_cert.py:532-551 | a styled paragraph has its font, size and alignment in the standard grey with leading 10 |
| Stanford.DateAsWrittenIsOffPage | gen_cert.py:561-579 | the date's left edge as written is beyond the page's right edge |
| Stanford.DateX | gen_cert.py:561-579 | the corrected date ends DateIndent mm from the page's right edge |
| Stanford.DateIsOnPage | gen_cert.py:561-579 | the corrected date starts on the page |
| Stanford.NameFitsWhenLarge | gen_cert.py:593-621 | the name is set at 34 points iff it is at most 153 mm wide at that size, else at 18 points lower down; it is bold iff the bold face can show it |
| Stanford.NameAsWrittenOverflows | gen_cert.py:597-614 | as written, a wide Unicode name measured at 10 points is set at 34 points though it is wider than 153 mm |
| Stanford.OverlayTopToBottom | gen_cert.py:561-657 | the overlay draws four paragraphs, or five exactly when verification is on, each strictly below the one before, and the certify, name and completion lines share the left margin |
| Stanford.OverlayLines | gen_cert.py:623-657 | the completion line holds the grade's interstitial text; with verification the last line is the authenticity sentence, centre-aligned on a box centred on the page to within 3 mm |
| Stanford.DrawDate | gen_cert.py:561-579 | the page receives the date paragraph, placed at the corrected left edge (see Findings) |
| Stanford.DrawCertify | gen_cert.py:581-591 | the page receives the certify line, and the regular style is left at 14-point left-aligned grey |
| Stanford.DrawName | gen_cert.py:593-621 | the page receives the name paragraph, sized by the corrected 34-point measure (see Findings) |
| Stanford.DrawCompleted | gen_cert.py:623-637 | the page receives the completion line |
| Stanford.DrawAuthenticity | gen_cert.py:639-657 | the page receives the authenticity sentence |
| Stanford.DrawBody | gen_cert.py:532-637 | the page receives the date, certify, name and completion paragraphs in that order, and the body-text style is left regular for the authenticity line; date and name use the corrected geometry (see Findings) |
| Stanford.DrawOverlay | gen_cert.py:532-657 | the page receives exactly the Overlay calls: the four body paragraphs, then the authenticity sentence exactly when verification is on; date and name use the corrected geometry (see Findings) |
| Instructors.ShiftAttr | gen_cert.py:873-876 | adding to a numeric attribute changes that attribute only; a missing or non-numeric one fails |
| Instructors.PlaceStep | gen_cert.py:858-901 | placing keeps the element kind, and kinds other than text, line and image are skipped |
| Instructors.PlacedStaysOk | gen_cert.py:858-902 | placing keeps a text element drawable |
| Instructors.TextPlacement | gen_cert.py:861-871 | the text is the literal string or the instructor's value for the key; the element is skipped iff it has no string and its key names no field of the instructor; with neither a string nor a key it raises KeyError; x and y are shifted by the block's position, which then moves down by the element's height |
| Instructors.LinePlacement | gen_cert.py:872-876 | a line is shifted by the block's position and does not move it |
| Instructors.ImageFailures | gen_cert.py:877-893 | an image step is never skipped: without a file, a missing key or a key the instructor lacks raises KeyError, and an image file of width 0 raises ZeroDivisionError |
| Instructors.ImagePlacement | gen_cert.py:877-899 | an image's height follows its aspect ratio truncated to an integer, and the block moves down by the offset and that height |
| Instructors.InstructorsDrawnOutcome | gen_cert.py:853-902 | the blocks complete iff every instructor's block does, and a failure is the first failing block's |
| Instructors.AspectHeight | gen_cert.py:889-893 | the height keeps the image's aspect ratio at the drawn width, truncated to whole points (within one point below the exact height) |
| Instructors.DrawTemplateStep | gen_cert.py:858-902 | one template step extends the canvas by that step's calls and, when the drawing goes on, leaves the remaining steps to draw from the next running y |
| Instructors.DrawInstructor | gen_cert.py:855-902 | the canvas receives exactly one instructor's calls |
| Instructors.DrawInstructors | gen_cert.py:853-902 | the canvas receives exactly the instructors' calls, in order |
| CertGen.IssuedFor | gen_cert.py:736-743 | the returned triple is the download identifier, the verification identifier or '', and the download address |
| CertGen.V4Fonts | gen_cert.py:758-769 | the font list is the course font, then Arial Unicode |
| CertGen.V4ContextMeaning | gen_cert.py:773-840 | the v4 context has every field; without a designation the name and description are the student's and the grade's; no verification prints no verify text; a disclaimer course prints none |
| CertGen.V4DrawnParts | gen_cert.py:842-908 | the v4 page is the theme, the instructor blocks, then the course information with the context, stopping at the first failure |
| CertGen.DrawV4Overlay | gen_cert.py:842-908 | the page receives exactly V4Drawn's calls |
| CertGen.ArtifactsFor | gen_cert.py:934-943 | there is no verification page without verification or a signing key |
| CertGen.CertificateGen.constructor | gen_cert.py:104-212 | each field is resolved from the arguments, the course's configuration and the settings |
| CertGen.CertificateGen.ContainsCharactersAbove | gen_cert.py:431-444 | the loop answers true iff some character is at or above the value |
| CertGen.CertificateGen.UseNonLatin | gen_cert.py:446-451 | true iff a character lies outside Latin-1 |
| CertGen.CertificateGen.UseUnicodeFont | gen_cert.py:453-465 | true iff a character is at or above U+0500, which implies non-Latin |
| CertGen.CertificateGen.GenerateStanfordSOA | gen_cert.py:467-689 | the fresh page holds the Stanford overlay (with the corrected date and name geometry) for the certificate date, and the identifiers and verification page are those of the course |
| CertGen.CertificateGen.InterstitialText | gen_cert.py:141-155 | reading an interstitial text inserts the pass text for an unknown grade |
| CertGen.CertificateGen.GenerateV4Certificate | gen_cert.py:691-946 | the font list is set; a context error draws nothing; otherwise the page is V4Drawn of the context, and identifiers and verification follow only when drawing completes |
| CertGen.CertificateGen.GenerateCertificate | gen_cert.py:288-313 | an unknown version raises KeyError and draws nothing; the Stanford version draws the Stanford overlay and returns its identifiers and verification page, leaving the grade texts and font list alone; the v4 version sets the font list and grade text and then draws and returns exactly what GenerateV4Certificate does |
| XQueue.Validate | openedx_certificates/queue_xqueue.py:158-173 | a reply is valid or raises InvalidReturnCode |
| XQueue.ValidateIffZero | openedx_certificates/queue_xqueue.py:158-173 | a reply is valid iff its return code equals 0, and a missing code is invalid |
| XQueue.ProjectBody | openedx_certificates/queue_xqueue.py:198-213 | the body has exactly the eleven keys, copied when present and None otherwise |
| XQueue.ProjectBodyIdempotent | openedx_certificates/queue_xqueue.py:198-213 | projecting twice is projecting once, and other keys are dropped |
| XQueue.DecodePart | openedx_certificates/queue_xqueue.py:196-197 | a missing header or body decodes as '{}'; text is decoded |
| XQueue.ParseXQueueResponse | openedx_certificates/queue_xqueue.py:195-214 | parsing succeeds iff header and body decode, and then the body has exactly the eleven keys |
| XQueue.ParseEmptySubmission | openedx_certificates/queue_xqueue.py:196-213 | an empty submission gives an empty header and a body of None fields |
| XQueue.ParseIntRoundTrip | openedx_certificates/queue_xqueue.py:60 | int() reads back the decimal text of any integer |
| XQueue.QueueLength | openedx_certificates/queue_xqueue.py:59-63 | a missing content is 0, and only a null content raises |
| XQueue.QueueLengthReadsNumbers | openedx_certificates/queue_xqueue.py:59-63 | a length sent as a number or its decimal text is read back; text that is not a number reads as 0 |
| XQueue.MethodUrl | openedx_certificates/queue_xqueue.py:121-132 | the method address adds nine characters to the method name and base |
| XQueue.MethodUrlInjective | openedx_certificates/queue_xqueue.py:121-132 | two methods share an address iff they are the same method |
| XQueue.Submission | openedx_certificates/queue_xqueue.py:86-89 | peek's content must be present (else KeyError) and text; it is decoded and parsed |
| XQueue.LoginResult | openedx_certificates/queue_xqueue.py:144-155 | with a session the login succeeds without a request; without one the login reply is validated |
| XQueue.Answer | openedx_certificates/queue_xqueue.py:178-192 | a call succeeds iff its login and its reply are valid, returning the reply |
| XQueue.PostData | openedx_certificates/queue_xqueue.py:108-111 | the posted form is exactly the JSON header and the JSON body |
| XQueue.XQueuePullManager.LoginRequest | openedx_certificates/queue_xqueue.py:147-154 | the login posts the XQueue user name and password to the login method |
| XQueue.XQueuePullManager.constructor | openedx_certificates/queue_xqueue.py:25-42 | the manager keeps its address, queue and credentials, with no session and no request sent |
| XQueue.XQueuePullManager.ToString | openedx_certificates/queue_xqueue.py:67-71 | the manager reads as its base address |
| XQueue.XQueuePullManager.TryLogin | openedx_certificates/queue_xqueue.py:134-155 | the login is sent only without a session; the session stays set even if the login is rejected; later calls send nothing and succeed |
| XQueue.XQueuePullManager.Call | openedx_certificates/queue_xqueue.py:178-192 | a call logs in if need be, then sends its request unless the login failed, and validates the reply |
| XQueue.XQueuePullManager.Length | openedx_certificates/queue_xqueue.py:44-65 | the queue length is asked for by queue name and read by QueueLength |
| XQueue.XQueuePullManager.Peek | openedx_certificates/queue_xqueue.py:73-90 | a submission is asked for by queue name and parsed by Submission |
| XQueue.XQueuePullManager.PostResult | openedx_certificates/queue_xqueue.py:98-119 | the JSON header and body are posted to put_result after the login |
| XQueue.XQueuePullManager.Push | openedx_certificates/queue_xqueue.py:92-93 | push posts the header and body to put_result and fails only on an invalid reply |
| XQueue.XQueuePullManager.Pop | openedx_certificates/queue_xqueue.py:95-96 | pop posts exactly as push does |

## Left out

- Font registration: scanning the font directory and building each font's glyph table (`util.py:28-33`) is I/O. The tables are a parameter.
- ReportLab measurement, wrapping and drawing are a parameter (`Measurer`, `TextWidth`) and a call log. Paragraph markup is text.
- HexColor parsing is left out. Colours are their text.
- FontUtil.AutoscaleText requires a box that is not negative, and so, through Elements.AutoscaleBoxOk and Elements.StepsOk, do Elements.TextDrawn, Elements.DrawText, Elements.ElementDrawn, Elements.DrawTemplateElement, Elements.StepsDrawn, Elements.DrawSteps, Instructors.InstructorsDrawn, Instructors.DrawInstructor, Instructors.DrawInstructors, CertGen.V4Drawn, CertGen.DrawV4Overlay, CertGen.CertificateGen.GenerateV4Certificate and CertGen.CertificateGen.GenerateCertificate, because the measurer assumption `ShrinksToFit` speaks only of such boxes; for a negative box the model says nothing about termination.
- Floating point: all geometry is `real`. Python 2 integer division of an integer font size by 5 (`elements.py:123`, `cme.py:111`) is modelled as real division.
- Elements.AutoscaledTextY: `(height - paragraph.height) / 2` (`elements.py:123`) floors in Python 2 when both heights are integers; the model divides exactly.
- Elements.ReadTextSettings: a `string` attribute that is not text is a TypeError here. The source's `unicode()` would convert a number to text.
- Alignment names are upper-cased on ASCII letters only.
- CertGen.V4Drawn, CertGen.V4DrawnParts and CertGen.CertificateGen.GenerateV4Certificate assume that flair draws nothing and then draw the instructor blocks and course information. The source as shown cannot import `draw_flair` (`gen_cert.py:40`; `elements.py` does not define it), and even a late lookup would raise at `gen_cert.py:850` before those are drawn.
- The template PDF is opened in the constructor (`gen_cert.py:204-207`). Here it is only its file name.
- PDF merging with BLANK_PDFS, writing files, `_ensure_dir`, the temporary and AWS settings, S3 upload, copies to the web root and cleanup are I/O.
- GPG signing and the HTML page bodies of `_generate_verification_page` are left out. Only their names, addresses and type codes are modelled.
- `create_and_upload` is not part of this model.
- `cert_label_plural` and `course_association_text` (`gen_cert.py:210-211`) are not read by the modelled renderers, so they are not modelled.
- CertConfig.GetCertDate: Babel's calendar formatting, the time zone and the locale are the `formatDate` parameter. Today's date is a parameter.
- CourseKey parsing is left out. The course and organisation from the key are constructor arguments.
- `uuid.uuid4().hex` values are parameters. Their uniqueness is not modelled.
- UTF-8 encoding and decoding (`.encode('utf-8')`, `.decode('utf-8')`) are identities on text.
- CertText.WithDesignationMeaning and CertGen.V4ContextFor: names are text here, so Python 2's encoding failures on a non-ASCII student name are not modelled. The name arrives as UTF-8 bytes (`openedx_certificates/monitor.py:59,65`), and mixing it into `u"{name}, {designation}"` for a designation other than Other or None (`gen_cert.py:799-802`) raises UnicodeDecodeError; a name that is already unicode raises UnicodeEncodeError at `student_name.decode('utf-8')` (`gen_cert.py:829`). The model gives, for "José" and "MD", `Ok("José, MD")`.
- TextFormat.Format: positional fields (`{0}`, `{}`), format specs (`{a:>10}`), conversions (`{a!r}`) and attribute or index fields (`{a.b}`, `{a[0]}`) are all a KeyError of the whole field text here, where Python would give IndexError or apply them. Templates from YAML reach Format at `elements.py:94` and `gen_cert.py:790` and `gen_cert.py:814-827`.
- Stanford.DrawDate, Stanford.DrawName, Stanford.DrawBody, Stanford.DrawOverlay, CertGen.CertificateGen.GenerateStanfordSOA and, through its Stanford branch, CertGen.CertificateGen.GenerateCertificate draw the corrected date position and name size; the code as written is modelled by Stanford.DateXAsWritten and Stanford.NameWidthAsWritten, see Findings.
- A grade of None is the empty string.
- The course configuration is typed (`CertConfig.CertData`), so a field of the wrong type in the YAML configuration is not modelled there. Element attributes stay dynamic, and where Python would coerce a value the model raises a TypeError instead: Elements.StrokeDrawn and Elements.RectangleDrawn take only numbers as `stroke_width` (Python would draw `true` as width 1) and only text as colours.
- Dictionaries the source iterates in dict order (designations, steps, instructors) are sequences in a fixed order.
- An instructor's data field named `template` is not available as a text key.
- An image's size comes from the `imageSize` parameter. An unreadable image file is not modelled.
- The Stanford renderer's font mappings, canvas setup and `showPage` and `save` calls are not recorded. Only its paragraphs are.
- The HTTP layer (`requests`, sessions, connection errors and timeouts) is left out. The replies a call receives are parameters, and the requests are a log.
- JSON decoding and encoding are the `loads` and `dumps` parameters. A decoded value that is not an object is an error of `loads`.
- XQueue.ParseInt reads ASCII digits only. Python 2's `int()` on unicode text also accepts other decimal digits.
- XQueue.QueueLength: a content that decodes to a list or an object is not a `Value`, so it is not modelled.
- The XQueue log messages are left out.

## Findings

| source | as written | input that shows it | evidently intended | confidence | as-written member | corrected member |
|---|---|---|---|---|---|---|
| gen_cert.py:597-603 | A name that needs the Unicode face is measured in the Arial style at the style's unset default of 10 points. It is then set at 34 points. | A name of 30 CJK ideographs whose width is half an em per character: 150 points at 10 points, 510 points at 34 points. | Measure the name at 34 points, the size it is set at, so that a name wider than 153 mm drops to 18 points. | not executed | Stanford.NameAsWrittenOverflows | Stanford.NameFitsWhenLarge |
| gen_cert.py:561-579 | The date's left edge is `(WIDTH - 45 - date_width) * mm`, where WIDTH is the page width in points, not in mm. | Any date narrower than 400 mm, for example one 40 mm wide, starts beyond the page's right edge. | `(297 - 45 - date_width) * mm`: the date ends 45 mm from the right edge of the A4 landscape page. | not executed | Stanford.DateAsWrittenIsOffPage | Stanford.DateIsOnPage |
