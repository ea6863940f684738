/** The certificate generator (class CertificateGen of gen_cert.py): the
    constructor's resolution of a course's configuration, the character
    range tests that pick a face for a name, the Stanford and v4 renderers,
    and the dispatch between them. What leaves the process (the PDF file,
    the signature, S3) is left out; each renderer returns the overlay it
    drew, the identifiers and address it issued, and the names the
    verification page is built from. */
module CertGen {
  import opened Values
  import opened Drawing
  import opened FontUtil
  import opened Elements
  import opened CertConfig
  import opened CertText
  import opened Stanford
  import opened Instructors

  /** What the generator takes from its surroundings: the fonts' glyph
      tables, paragraph and text measurement, image sizes, the calendar
      formatting of dates in the course's locale and time zone, and
      today's date. */
  datatype Environment = Environment(
    tables: CharTables,
    measure: Measurer,
    width: TextWidth,
    imageSize: ImageSize,
    formatDate: string -> string,
    today: string)

  /** `(download_uuid, verify_uuid, download_url)`. */
  datatype Issued = Issued(downloadUuid: string, verifyUuid: string, downloadUrl: string)

  /** The identifiers and address a certificate is issued under, from the
      two fresh UUIDs the renderer draws. */
  function IssuedFor(s: Settings, verify: bool, verifyHex: string, downloadHex: string, filename: string)
    : (r: Issued)
    ensures r.downloadUuid == downloadHex && r.downloadUrl == DownloadUrl(s, downloadHex, filename)
    ensures r.verifyUuid == VerifyUuid(verify, verifyHex)
  {
    Issued(downloadHex, VerifyUuid(verify, verifyHex), DownloadUrl(s, downloadHex, filename))
  }

  /** The v4 renderer's fonts in order of preference: the course's face,
      then Arial Unicode. */
  function V4Fonts(fontName: string, fontType: string): (fonts: seq<FontTuple<()>>)
    ensures |fonts| == 2 && fonts[1].name == "Arial Unicode"
    ensures fonts[0].name == fontName + "-" + fontType && fonts[0].file == fonts[0].name + ".ttf"
  {
    [FontTuple(fontName + "-" + fontType, fontName + "-" + fontType + ".ttf", ()),
     FontTuple("Arial Unicode", "Arial Unicode.ttf", ())]
  }

  /** The grade's description on a v4 certificate: its configured
      interstitial text, else the text for a pass, else ''. */
  function GradeDescription(texts: map<string, string>, passText: string, grade: string): string {
    if grade in texts then texts[grade] else passText
  }

  /** The substitution context of a v4 certificate: translations, the
      grade line, the designation, the disclaimer and the verification
      sentence. */
  function V4ContextFor(s: Settings, data: CertData, locale: string, longCourse: string, description: string,
                        grade: string, designation: Option<string>, studentName: string, dateString: string,
                        verifyUuid: string): Result<map<string, string>> {
    var achievements :- GradeAchievement(grade, Translated(s.defaultTranslation, data.translations, locale,
                                                            "grade_interstitial"));
    var a :- WithDesignation(data, designation, Achievements(studentName, achievements, description, ""));
    var verifyText :- VerifyText(data.verify, Translated(s.defaultTranslation, data.translations, locale, "verify_text"),
                                 s, verifyUuid);
    Ok(V4Context(dateString, Translated(s.defaultTranslation, data.translations, locale, "success_text"), longCourse, a,
                 Disclaimer(data, Translated(s.defaultTranslation, data.translations, locale, "disclaimer_text")),
                 verifyText))
  }

  /** The v4 context names every field templates can use; without a
      matching designation the name and description are the student's own
      and the grade's; without verification the verification sentence is
      empty; a course with its own disclaimer prints none. */
  lemma V4ContextMeaning(s: Settings, data: CertData, locale: string, longCourse: string, description: string,
                         grade: string, designation: Option<string>, studentName: string, dateString: string,
                         verifyUuid: string)
    ensures var r := V4ContextFor(s, data, locale, longCourse, description, grade, designation, studentName,
                                  dateString, verifyUuid);
      r.Ok? ==>
        r.value.Keys == ContextKeys &&
        r.value["date_string"] == dateString && r.value["course_title"] == longCourse &&
        (!data.verify ==> r.value["verify_text"] == "") &&
        (data.hasDisclaimer ==> r.value["disclaimer_text"] == "") &&
        (FirstDesignation(data.designations, designation, 0).None? ==>
          r.value["student_name"] == studentName && r.value["achievements_description_string"] == description &&
          r.value["designation_tag"] == "")
    ensures var r := V4ContextFor(s, data, locale, longCourse, description, grade, designation, studentName,
                                  dateString, verifyUuid);
      FirstDesignation(data.designations, designation, 0).Some? && data.credits.None? ==> r.Err?
  {
    var r := V4ContextFor(s, data, locale, longCourse, description, grade, designation, studentName,
                          dateString, verifyUuid);
    var gi := Translated(s.defaultTranslation, data.translations, locale, "grade_interstitial");
    match GradeAchievement(grade, gi)
    case Err(_) =>
    case Ok(achievements) =>
      WithDesignationMeaning(data, designation, Achievements(studentName, achievements, description, ""));
  }

  /** What the v4 renderer draws: the course's theme, the instructors'
      blocks, then the course information filled from the context. The
      flair the source asks for between the theme and the blocks is taken
      to draw nothing. */
  function V4Drawn(kit: Toolkit, fonts: seq<FontTuple<()>>, imageSize: ImageSize, data: CertData,
                   context: map<string, string>): Drawn
    requires ShrinksToFit(kit.measure) && StepsOk(data.certificateTheme) && TemplatesOk(data.instructors)
    requires StepsOk(data.courseInformation)
  {
    Then(StepsDrawn(kit, fonts, data.certificateTheme, None),
         Then(InstructorsDrawn(kit, fonts, imageSize, data.instructors, 0),
              StepsDrawn(kit, fonts, data.courseInformation, Some(context))))
  }

  /** The v4 drawing completes exactly when its three parts do, and then
      it is the three parts' calls in order. */
  lemma V4DrawnParts(kit: Toolkit, fonts: seq<FontTuple<()>>, imageSize: ImageSize, data: CertData,
                     context: map<string, string>)
    requires ShrinksToFit(kit.measure) && StepsOk(data.certificateTheme) && TemplatesOk(data.instructors)
    requires StepsOk(data.courseInformation)
    ensures var theme := StepsDrawn(kit, fonts, data.certificateTheme, None);
      var blocks := InstructorsDrawn(kit, fonts, imageSize, data.instructors, 0);
      var info := StepsDrawn(kit, fonts, data.courseInformation, Some(context));
      var all := V4Drawn(kit, fonts, imageSize, data, context);
      (all.outcome.Done? <==> theme.outcome.Done? && blocks.outcome.Done? && info.outcome.Done?) &&
      (all.outcome.Done? ==> all.calls == theme.calls + blocks.calls + info.calls) &&
      (theme.outcome.Failed? ==> all == theme)
  {
  }

  /** Drawing the v4 overlay: theme, instructors, course information,
      stopping at the first element that raises. */
  method DrawV4Overlay(kit: Toolkit, fonts: seq<FontTuple<()>>, imageSize: ImageSize, data: CertData,
                       context: map<string, string>, page: Canvas) returns (outcome: Outcome)
    requires ShrinksToFit(kit.measure) && StepsOk(data.certificateTheme) && TemplatesOk(data.instructors)
    requires StepsOk(data.courseInformation)
    modifies page
    ensures page.calls == old(page.calls) + V4Drawn(kit, fonts, imageSize, data, context).calls
    ensures outcome == V4Drawn(kit, fonts, imageSize, data, context).outcome
  {
    ghost var start := page.calls;
    ghost var theme := StepsDrawn(kit, fonts, data.certificateTheme, None);
    ghost var blocks := InstructorsDrawn(kit, fonts, imageSize, data.instructors, 0);
    ghost var info := StepsDrawn(kit, fonts, data.courseInformation, Some(context));
    outcome := DrawSteps(kit, fonts, data.certificateTheme, page, None);
    if outcome.Failed? {
      return;
    }
    outcome := DrawInstructors(kit, fonts, imageSize, data.instructors, page);
    AppendAssoc(start, theme.calls, blocks.calls);
    if outcome.Failed? {
      return;
    }
    outcome := DrawSteps(kit, fonts, data.courseInformation, page, Some(context));
    AppendAssoc(start, theme.calls + blocks.calls, info.calls);
    AppendAssoc(theme.calls, blocks.calls, info.calls);
  }

  /** The verification page a renderer makes, when verification is on. */
  function ArtifactsFor(s: Settings, templateType: string, verify: bool, downloadDir: string, verifyDir: string,
                        filename: string, verifyHex: string, downloadHex: string): (r: Option<VerificationPage>)
    requires templateType in {"verified", "honor"}
    ensures !verify || s.certKeyId == "" ==> r.None?
  {
    if verify then
      VerificationArtifacts(s, templateType, CertificatePath(downloadDir, downloadHex, filename), verifyDir,
                            VerifyUuid(verify, verifyHex), DownloadUrl(s, downloadHex, filename)).value
    else None
  }

  class CertificateGen {
    const settings: Settings
    const certData: CertData
    const longOrg: string
    const longCourse: string
    const issuedDate: string
    /** `interstitial_texts`: a default dictionary whose missing entries
        read, and are then stored, as the text for a pass. */
    var interstitialTexts: map<string, string>
    const passText: string
    const locale: string
    const course: string
    const org: string
    const templateVersion: string
    const templateType: string
    const templateFontName: string
    const templateFontType: string
    /** The template PDF the constructor opens, if any. */
    const templatePdf: Option<string>
    const certLabelSingular: string
    var fontlist: seq<FontTuple<()>>

    /** The constructor's resolution of a course's configuration; the
        organisation and course code of the course key are arguments. */
    constructor (s: Settings, data: CertData, keyCourse: string, keyOrg: string, templatePdfArg: TemplateArg,
                 longOrgArg: string, longCourseArg: string, issuedDateArg: string)
      ensures settings == s && certData == data
      ensures longOrg == ResolveLongOrg(longOrgArg, data, s)
      ensures longCourse == ResolveLongCourse(longCourseArg, data)
      ensures issuedDate == ResolveIssuedDate(issuedDateArg, data)
      ensures interstitialTexts == data.interstitial && passText == Lookup(data.interstitial, "Pass", "")
      ensures locale == (if data.locale.Some? then data.locale.value else s.defaultLocale)
      ensures course == (if data.course.Some? then data.course.value else keyCourse)
      ensures org == (if data.org.Some? then data.org.value else keyOrg)
      ensures templateVersion == TemplateVersion(data)
      ensures templateType == TemplateType(EffectiveTemplate(data, templatePdfArg))
      ensures templatePdf == TemplateFileName(s.templateDir, templateVersion, org, course,
                                              EffectiveTemplate(data, templatePdfArg))
      ensures templateFontName == (if data.fontName.Some? then data.fontName.value else "OpenSans")
      ensures templateFontType == (if data.fontType.Some? then data.fontType.value else "Light")
      ensures certLabelSingular == (if data.certsAreCalled.Some? then data.certsAreCalled.value else s.certsAreCalled)
      ensures fontlist == []
    {
      settings := s;
      certData := data;
      longOrg := ResolveLongOrg(longOrgArg, data, s);
      longCourse := ResolveLongCourse(longCourseArg, data);
      issuedDate := ResolveIssuedDate(issuedDateArg, data);
      interstitialTexts := data.interstitial;
      passText := Lookup(data.interstitial, "Pass", "");
      locale := if data.locale.Some? then data.locale.value else s.defaultLocale;
      var c := if data.course.Some? then data.course.value else keyCourse;
      var o := if data.org.Some? then data.org.value else keyOrg;
      course := c;
      org := o;
      var version := TemplateVersion(data);
      templateVersion := version;
      var template := EffectiveTemplate(data, templatePdfArg);
      templateType := TemplateType(template);
      templatePdf := TemplateFileName(s.templateDir, version, o, c, template);
      templateFontName := if data.fontName.Some? then data.fontName.value else "OpenSans";
      templateFontType := if data.fontType.Some? then data.fontType.value else "Light";
      certLabelSingular := if data.certsAreCalled.Some? then data.certsAreCalled.value else s.certsAreCalled;
      fontlist := [];
    }

    // -------------------------------------------------------------------
    // Character ranges

    /** `_contains_characters_above`: whether some character's code point
        is at least `value`. */
    method ContainsCharactersAbove(s: string, value: int) returns (found: bool)
      ensures found <==> HasCharacterAbove(s, value)
    {
      var i := 0;
      while i < |s|
        invariant 0 <= i <= |s|
        invariant forall j :: 0 <= j < i ==> s[j] as int < value
      {
        if s[i] as int >= value {
          return true;
        }
        i := i + 1;
      }
      return false;
    }

    /** `_use_non_latin`: a character outside Latin-1. */
    method UseNonLatin(s: string) returns (nonLatin: bool)
      ensures nonLatin <==> HasCharacterAbove(s, 0x100)
    {
      nonLatin := ContainsCharactersAbove(s, 0x100);
    }

    /** `_use_unicode_font`: a character at or above U+0500, which the
        course faces are taken to lack; such a string is non-Latin too. */
    method UseUnicodeFont(s: string) returns (unicode: bool)
      ensures unicode <==> HasCharacterAbove(s, 0x500)
      ensures unicode ==> HasCharacterAbove(s, 0x100)
    {
      unicode := ContainsCharactersAbove(s, 0x500);
    }

    // -------------------------------------------------------------------
    // Stanford

    /** `_generate_stanford_SOA`: draws the overlay paragraph by paragraph
        with the renderer's mutable styles, and returns the certificate's
        identifiers and its verification page. */
    /** What the Stanford renderer makes: the overlay's paragraphs, the
        certificate's identifiers and its verification page. */
    predicate StanfordGenerated(env: Environment, studentName: string, downloadDir: string, verifyDir: string,
                                filename: string, grade: string, verifyHex: string, downloadHex: string,
                                interstitial: map<string, string>, issued: Issued, calls: seq<CanvasCall>,
                                verification: Option<VerificationPage>)
      requires templateType in {"verified", "honor"}
    {
      calls == Overlay(env.width, settings, GetCertDate(None, issuedDate, env.today, env.formatDate),
                       studentName, grade, interstitial, certData.verify,
                       VerifyUuid(certData.verify, verifyHex), certLabelSingular) &&
      issued == IssuedFor(settings, certData.verify, verifyHex, downloadHex, filename) &&
      verification == ArtifactsFor(settings, templateType, certData.verify, downloadDir, verifyDir, filename,
                                   verifyHex, downloadHex)
    }

    method GenerateStanfordSOA(env: Environment, studentName: string, downloadDir: string, verifyDir: string,
                               filename: string, grade: string, verifyHex: string, downloadHex: string)
      returns (issued: Issued, page: Canvas, verification: Option<VerificationPage>)
      requires templateType in {"verified", "honor"}
      ensures fresh(page)
      ensures StanfordGenerated(env, studentName, downloadDir, verifyDir, filename, grade, verifyHex, downloadHex,
                                interstitialTexts, issued, page.calls, verification)
    {
      var verify := certData.verify;
      var verifyUuid := if verify then verifyHex else "";
      var downloadUrl := DownloadUrl(settings, downloadHex, filename);
      page := new Canvas();

      var unicode := UseUnicodeFont(studentName);
      var dateString := GetCertDate(None, issuedDate, env.today, env.formatDate);
      DrawOverlay(page, env.width, settings, dateString, studentName, grade, interstitialTexts, verify, verifyUuid,
                  certLabelSingular, unicode);
      assert page.calls == Overlay(env.width, settings, dateString, studentName, grade, interstitialTexts, verify,
                                   verifyUuid, certLabelSingular);

      issued := Issued(downloadHex, verifyUuid, downloadUrl);
      verification := None;
      if verify {
        verification := VerificationArtifacts(settings, templateType, CertificatePath(downloadDir, downloadHex, filename),
                                              verifyDir, verifyUuid, downloadUrl).value;
      }
    }

    // -------------------------------------------------------------------
    // v4

    /** `self.interstitial_texts[grade]`: the grade's text, stored as the
        text for a pass when missing. */
    method InterstitialText(grade: string) returns (text: string)
      modifies this`interstitialTexts
      ensures text == GradeDescription(old(interstitialTexts), passText, grade)
      ensures interstitialTexts == old(interstitialTexts)[grade := text]
    {
      if grade !in interstitialTexts {
        interstitialTexts := interstitialTexts[grade := passText];
      }
      text := interstitialTexts[grade];
    }

    /** What the v4 renderer makes, given the grade texts before the call:
        an error and a blank overlay when the context cannot be built;
        otherwise the theme, instructors and course information drawn, and
        the identifiers and verification page only when all of it was
        drawn. */
    predicate V4Generated(env: Environment, studentName: string, downloadDir: string, verifyDir: string,
                          filename: string, grade: string, designation: Option<string>, verifyHex: string,
                          downloadHex: string, interstitial: map<string, string>, issued: Result<Issued>,
                          calls: seq<CanvasCall>, verification: Option<VerificationPage>)
      requires ShrinksToFit(env.measure) && templateType in {"verified", "honor"}
      requires StepsOk(certData.certificateTheme) && TemplatesOk(certData.instructors)
      requires StepsOk(certData.courseInformation)
    {
      var context := V4ContextFor(settings, certData, locale, longCourse,
                                  GradeDescription(interstitial, passText, grade), grade, designation, studentName,
                                  GetCertDate(None, issuedDate, env.today, env.formatDate),
                                  VerifyUuid(certData.verify, verifyHex));
      match context
      case Err(e) => issued == Err(e) && calls == [] && verification.None?
      case Ok(ctx) =>
        var drawn := V4Drawn(Toolkit(env.tables, env.measure, settings.templateDir),
                             V4Fonts(templateFontName, templateFontType), env.imageSize, certData, ctx);
        calls == drawn.calls &&
        (drawn.outcome.Failed? ==> issued == Err(drawn.outcome.error) && verification.None?) &&
        (drawn.outcome.Done? ==>
          issued == Ok(IssuedFor(settings, certData.verify, verifyHex, downloadHex, filename)) &&
          verification == ArtifactsFor(settings, templateType, certData.verify, downloadDir, verifyDir, filename,
                                       verifyHex, downloadHex))
    }

    /** `_generate_v4_certificate`: the texts and context, then the theme,
        the instructors and the course information drawn on a new
        overlay. A text that cannot be formatted, or CREDITS missing for
        a designation, raises before anything is drawn. */
    method GenerateV4Certificate(env: Environment, studentName: string, downloadDir: string, verifyDir: string,
                                 filename: string, grade: string, designation: Option<string>,
                                 verifyHex: string, downloadHex: string)
      returns (issued: Result<Issued>, page: Canvas, verification: Option<VerificationPage>)
      requires ShrinksToFit(env.measure) && templateType in {"verified", "honor"}
      requires StepsOk(certData.certificateTheme) && TemplatesOk(certData.instructors)
      requires StepsOk(certData.courseInformation)
      modifies this`fontlist, this`interstitialTexts
      ensures fresh(page)
      ensures fontlist == V4Fonts(templateFontName, templateFontType)
      ensures interstitialTexts == old(interstitialTexts)[grade := GradeDescription(old(interstitialTexts), passText, grade)]
      ensures V4Generated(env, studentName, downloadDir, verifyDir, filename, grade, designation, verifyHex,
                          downloadHex, old(interstitialTexts), issued, page.calls, verification)
    {
      var verify := certData.verify;
      var verifyUuid := if verify then verifyHex else "";
      var downloadUrl := DownloadUrl(settings, downloadHex, filename);
      page := new Canvas();
      verification := None;

      fontlist := V4Fonts(templateFontName, templateFontType);
      var fonts := fontlist;
      var description := InterstitialText(grade);
      var dateString := GetCertDate(None, issuedDate, env.today, env.formatDate);
      var context := V4ContextFor(settings, certData, locale, longCourse, description, grade, designation,
                                  studentName, dateString, verifyUuid);
      if context.Err? {
        return Err(context.error), page, None;
      }
      var kit := Toolkit(env.tables, env.measure, settings.templateDir);
      var outcome := DrawV4Overlay(kit, fonts, env.imageSize, certData, context.value, page);
      if outcome.Failed? {
        return Err(outcome.error), page, None;
      }
      issued := Ok(Issued(downloadHex, verifyUuid, downloadUrl));
      if verify {
        verification := VerificationArtifacts(settings, templateType, CertificatePath(downloadDir, downloadHex, filename),
                                              verifyDir, verifyUuid, downloadUrl).value;
      }
    }

    // -------------------------------------------------------------------
    // Dispatch

    /** `_generate_certificate`: the renderer for the course's template
        version; no date is passed on, so the configured or today's date is
        used. An unknown version raises KeyError. */
    method GenerateCertificate(env: Environment, studentName: string, downloadDir: string, verifyDir: string,
                               filename: string, grade: string, designation: Option<string>,
                               verifyHex: string, downloadHex: string)
      returns (issued: Result<Issued>, page: Canvas, verification: Option<VerificationPage>)
      requires ShrinksToFit(env.measure) && templateType in {"verified", "honor"}
      requires StepsOk(certData.certificateTheme) && TemplatesOk(certData.instructors)
      requires StepsOk(certData.courseInformation)
      modifies this`fontlist, this`interstitialTexts
      ensures fresh(page)
      ensures RendererFor(templateVersion).Err? ==>
        issued == Err(KeyError(templateVersion)) && page.calls == [] && verification.None?
      ensures RendererFor(templateVersion) == Ok(StanfordSOA) ==>
        issued.Ok? && interstitialTexts == old(interstitialTexts) && fontlist == old(fontlist) &&
        StanfordGenerated(env, studentName, downloadDir, verifyDir, filename, grade, verifyHex, downloadHex,
                          interstitialTexts, issued.value, page.calls, verification)
      ensures RendererFor(templateVersion) == Ok(V4Certificate) ==>
        fontlist == V4Fonts(templateFontName, templateFontType) &&
        interstitialTexts == old(interstitialTexts)[grade := GradeDescription(old(interstitialTexts), passText, grade)] &&
        V4Generated(env, studentName, downloadDir, verifyDir, filename, grade, designation, verifyHex, downloadHex,
                    old(interstitialTexts), issued, page.calls, verification)
    {
      var renderer := RendererFor(templateVersion);
      if renderer.Err? {
        page := new Canvas();
        return Err(renderer.error), page, None;
      }
      if renderer.value == StanfordSOA {
        var result;
        result, page, verification := GenerateStanfordSOA(env, studentName, downloadDir, verifyDir, filename, grade,
                                                          verifyHex, downloadHex);
        issued := Ok(result);
      } else {
        issued, page, verification := GenerateV4Certificate(env, studentName, downloadDir, verifyDir, filename, grade,
                                                            designation, verifyHex, downloadHex);
      }
    }
  }
}
