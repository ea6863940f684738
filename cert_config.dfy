/** The configuration side of the certificate generator (gen_cert.py): the
    settings and the per-course data it reads, how the constructor resolves
    names, dates and the template file, which renderer a course uses, and
    the download and verification addresses it builds. */
module CertConfig {
  import opened Values
  import opened Elements

  /** The deployment settings the generator reads. */
  datatype Settings = Settings(
    templateDir: string,
    certKeyId: string,
    certDownloadUrl: string,
    certVerifyUrl: string,
    /** S3_VERIFY_PATH, 'cert' unless configured. */
    s3VerifyPath: string,
    defaultOrg: string,
    defaultLocale: string,
    certsAreCalled: string,
    certsAreCalledPlural: string,
    /** DEFAULT_TRANSLATIONS for the default locale. */
    defaultTranslation: map<string, string>)

  /** The directory downloads are published under. */
  const S3CertPath: string := "downloads"

  /** A template file choice: `False` (no template file at all) or a file
      name, where the empty name stands for both None and ''. */
  datatype TemplateArg = NoTemplate | TemplateName(name: string)

  /** A group of designations: the titles it covers and the credits text
      it prints. */
  datatype Designation = Designation(titles: seq<string>, credits: string)

  /** One instructor block: its entries (`x`, `y`, the texts and files its
      template refers to by key) and the template steps drawn for it. */
  datatype Instructor = Instructor(fields: Dict, template: seq<Step>)

  /** A course's stanza of the certificate data. Text entries that are
      missing read as ''; the step lists and the designation groups are in
      the order they are iterated. */
  datatype CertData = CertData(
    longOrg: string,
    longCourse: string,
    issuedDate: string,
    interstitial: map<string, string>,
    locale: Option<string>,
    translations: map<string, map<string, string>>,
    course: Option<string>,
    org: Option<string>,
    version: Option<string>,
    fontName: Option<string>,
    fontType: Option<string>,
    templateFile: Option<TemplateArg>,
    certsAreCalled: Option<string>,
    /** VERIFY: whether a verification link is issued (true when unset). */
    verify: bool,
    designations: seq<(string, Designation)>,
    credits: Option<string>,
    hasDisclaimer: bool,
    certificateTheme: seq<Step>,
    instructors: seq<Instructor>,
    courseInformation: seq<Step>)

  // ---------------------------------------------------------------------
  // Precedence

  /** The first non-empty text of a list, or '' when there is none: the
      value of Python's `a or b or ...` on texts. */
  function FirstNonEmpty(xs: seq<string>): (r: string)
    ensures r == "" <==> forall i :: 0 <= i < |xs| ==> xs[i] == ""
    ensures r != "" ==> r in xs
  {
    if xs == [] then ""
    else if xs[0] != "" then xs[0]
    else FirstNonEmpty(xs[1..])
  }

  /** Three-way `or` picks the first non-empty of the three. */
  lemma {:induction false} OrChain(a: string, b: string, c: string)
    ensures Or(a, Or(b, c)) == FirstNonEmpty([a, b, c])
  {
    assert FirstNonEmpty([c]) == c by {
      assert [c][1..] == [];
    }
    assert FirstNonEmpty([b, c]) == Or(b, c) by {
      assert [b, c][1..] == [c];
    }
    assert [a, b, c][1..] == [b, c];
  }

  /** `long_org`: the argument, then LONG_ORG, then DEFAULT_ORG. */
  function ResolveLongOrg(longOrg: string, data: CertData, s: Settings): (r: string)
    ensures r == FirstNonEmpty([longOrg, data.longOrg, s.defaultOrg])
  {
    OrChain(longOrg, data.longOrg, s.defaultOrg);
    Or(longOrg, Or(data.longOrg, s.defaultOrg))
  }

  /** `long_course`: LONG_COURSE first, then the argument, then ''. */
  function ResolveLongCourse(longCourse: string, data: CertData): (r: string)
    ensures r == FirstNonEmpty([data.longCourse, longCourse, ""])
  {
    OrChain(data.longCourse, longCourse, "");
    Or(data.longCourse, Or(longCourse, ""))
  }

  /** `issued_date`: the argument, then ISSUED_DATE, then 'ROLLING'. */
  function ResolveIssuedDate(issuedDate: string, data: CertData): (r: string)
    ensures r == FirstNonEmpty([issuedDate, data.issuedDate, "ROLLING"])
    ensures r != ""
  {
    OrChain(issuedDate, data.issuedDate, "ROLLING");
    Or(issuedDate, Or(data.issuedDate, "ROLLING"))
  }

  /** The organisation and the course precede in opposite orders: a
      configured course title beats the argument, while an organisation
      given as argument beats the configured one. */
  lemma LongNamesPrecedence(longOrg: string, longCourse: string, data: CertData, s: Settings)
    requires longOrg != "" && longCourse != "" && data.longOrg != "" && data.longCourse != ""
    ensures ResolveLongOrg(longOrg, data, s) == longOrg
    ensures ResolveLongCourse(longCourse, data) == data.longCourse
  {
  }

  // ---------------------------------------------------------------------
  // Dates

  /** Which date a certificate shows. */
  datatype DateChoice = CallingDate(date: string) | Today | ConfiguredDate(date: string)

  /** A date from the caller counts only when it is truthy: a missing or
      empty date is no date. */
  predicate Given(calling: Option<string>) {
    calling.Some? && calling.value != ""
  }

  /** `get_cert_date`'s choice: a date given by the caller, else today for
      a rolling course, else the configured date. */
  function CertDateChoice(calling: Option<string>, configured: string): (c: DateChoice)
    ensures Given(calling) <==> c.CallingDate?
    ensures c.CallingDate? ==> c.date == calling.value
    ensures c == Today <==> !Given(calling) && configured == "ROLLING"
    ensures c.ConfiguredDate? ==> c.date == configured && configured != "ROLLING"
  {
    if Given(calling) then CallingDate(calling.value)
    else if configured == "ROLLING" then Today
    else ConfiguredDate(configured)
  }

  /** `get_cert_date`: the chosen date in the course's locale and time zone;
      the calendar formatting and today's date are parameters. */
  function GetCertDate(calling: Option<string>, configured: string, today: string,
                       formatDate: string -> string): (r: string)
    ensures Given(calling) ==> r == formatDate(calling.value)
    ensures !Given(calling) && configured == "ROLLING" ==> r == formatDate(today)
    ensures !Given(calling) && configured != "ROLLING" ==> r == formatDate(configured)
  {
    match CertDateChoice(calling, configured)
    case CallingDate(d) => formatDate(d)
    case Today => formatDate(today)
    case ConfiguredDate(d) => formatDate(d)
  }

  /** With no date from the caller, a rolling course shows today's date
      whatever else is configured, and a fixed course shows the same date
      every day. */
  lemma CertDateRollingAndFixed(configured: string, today1: string, today2: string, formatDate: string -> string)
    ensures configured != "ROLLING" ==>
      GetCertDate(None, configured, today1, formatDate) == GetCertDate(None, configured, today2, formatDate)
    ensures configured == "ROLLING" ==> GetCertDate(None, configured, today1, formatDate) == formatDate(today1)
    ensures GetCertDate(Some(""), configured, today1, formatDate) == GetCertDate(None, configured, today1, formatDate)
  {
  }

  // ---------------------------------------------------------------------
  // Template file and renderer

  /** The template the constructor uses: TEMPLATEFILE, when configured,
      over the argument. */
  function EffectiveTemplate(data: CertData, templatePdf: TemplateArg): (t: TemplateArg)
    ensures data.templateFile.Some? ==> t == data.templateFile.value
    ensures data.templateFile.None? ==> t == templatePdf
  {
    if data.templateFile.Some? then data.templateFile.value else templatePdf
  }

  function TemplatePrefix(templateDir: string, version: string): string {
    templateDir + "/v" + version + "-cert-templates"
  }

  /** The template file path: none for `False`, the named file in the
      version's template directory, or the course's default template. */
  function TemplateFileName(templateDir: string, version: string, org: string, course: string,
                            template: TemplateArg): (path: Option<string>)
    ensures template.NoTemplate? <==> path.None?
    ensures template.TemplateName? && template.name != "" ==>
      path == Some(TemplatePrefix(templateDir, version) + "/" + template.name)
    ensures template == TemplateName("") ==>
      path == Some(TemplatePrefix(templateDir, version) + "/certificate-template-" + org + "-" + course + ".pdf")
  {
    match template
    case NoTemplate => None
    case TemplateName(name) =>
      var prefix := TemplatePrefix(templateDir, version);
      if name != "" then Some(prefix + "/" + name)
      else Some(prefix + "/certificate-template-" + org + "-" + course + ".pdf")
  }

  /** `template_type`: 'verified' when the given template name mentions
      it, 'honor' otherwise. */
  function TemplateType(template: TemplateArg): (t: string)
    ensures t == "verified" <==> template.TemplateName? && Contains(template.name, "verified")
    ensures t != "verified" ==> t == "honor"
  {
    if template.TemplateName? && template.name != "" && Contains(template.name, "verified") then "verified"
    else "honor"
  }

  /** The renderers a template version selects. */
  datatype Renderer = StanfordSOA | V4Certificate

  /** `VERSION`, '4_programmatic' unless configured. */
  function TemplateVersion(data: CertData): string {
    if data.version.Some? then data.version.value else "4_programmatic"
  }

  /** `versionmap[version]`: only 'stanford' and '4_programmatic' have a
      renderer; any other version raises KeyError. */
  function RendererFor(version: string): (r: Result<Renderer>)
    ensures r == Ok(StanfordSOA) <==> version == "stanford"
    ensures r == Ok(V4Certificate) <==> version == "4_programmatic"
    ensures r.Err? <==> version != "stanford" && version != "4_programmatic"
    ensures r.Err? ==> r.error == KeyError(version)
  {
    if version == "stanford" then Ok(StanfordSOA)
    else if version == "4_programmatic" then Ok(V4Certificate)
    else Err(KeyError(version))
  }

  /** A course without VERSION is rendered by the v4 renderer. */
  lemma DefaultVersionIsV4(data: CertData)
    requires data.version.None?
    ensures RendererFor(TemplateVersion(data)) == Ok(V4Certificate)
  {
  }

  // ---------------------------------------------------------------------
  // Addresses

  /** The public address of a certificate PDF. */
  function DownloadUrl(s: Settings, downloadUuid: string, file: string): string {
    s.certDownloadUrl + "/" + S3CertPath + "/" + downloadUuid + "/" + file
  }

  /** Different download identifiers give different addresses. */
  lemma DownloadUrlInjective(s: Settings, uuid1: string, uuid2: string, file: string)
    requires DownloadUrl(s, uuid1, file) == DownloadUrl(s, uuid2, file)
    ensures uuid1 == uuid2
  {
    var p := s.certDownloadUrl + "/" + S3CertPath + "/";
    assert DownloadUrl(s, uuid1, file) == p + (uuid1 + "/" + file);
    assert DownloadUrl(s, uuid2, file) == p + (uuid2 + "/" + file);
    var t1 := uuid1 + "/" + file;
    var t2 := uuid2 + "/" + file;
    assert t1 == (p + t1)[|p|..];
    assert t2 == (p + t2)[|p|..];
    assert |uuid1| == |uuid2|;
    assert uuid1 == t1[..|uuid1|];
  }

  /** The file name at the end of a download address is the PDF's. */
  lemma DownloadUrlNamesFile(s: Settings, downloadUuid: string, file: string)
    requires file != "" && '/' !in file
    ensures Basename(DownloadUrl(s, downloadUuid, file)) == file
  {
    assert DownloadUrl(s, downloadUuid, file) ==
      (s.certDownloadUrl + "/" + S3CertPath + "/" + downloadUuid) + "/" + file;
    BasenameOfSuffix(s.certDownloadUrl + "/" + S3CertPath + "/" + downloadUuid, file);
  }

  /** The verification identifier: fresh when verification is on, '' when
      it is off. */
  function VerifyUuid(verify: bool, freshUuid: string): (r: string)
    ensures freshUuid != "" ==> (r == "" <==> !verify)
  {
    if verify then freshUuid else ""
  }

  /** `{verify_url}/{verify_path}/{verify_uuid}`: the directory of a
      certificate's verification files. */
  function VerifyUrl(s: Settings, verifyUuid: string): string {
    s.certVerifyUrl + "/" + s.s3VerifyPath + "/" + verifyUuid
  }

  /** The basename of a path joined with a plain name is that name. */
  lemma BasenameOfJoin(a: string, b: string)
    requires b != "" && '/' !in b
    ensures Basename(PathJoin(a, b)) == b
  {
    if a == [] {
      assert PathJoin(a, b) == b;
    } else if a[|a| - 1] == '/' {
      assert PathJoin(a, b) == a[..|a| - 1] + "/" + b;
      BasenameOfSuffix(a[..|a| - 1], b);
    } else {
      BasenameOfSuffix(a, b);
    }
  }

  /** `os.path.join(download_dir, download_uuid, filename)`: where the PDF
      is written. */
  function CertificatePath(downloadDir: string, downloadUuid: string, file: string): string {
    PathJoin(PathJoin(downloadDir, downloadUuid), file)
  }

  /** What the verification page refers to: the detached signature's file
      and address, the page's own address, and the certificate type shown. */
  datatype VerificationPage = VerificationPage(
    signatureFile: string,
    signatureUrl: string,
    verifyPageUrl: string,
    typeCode: string,
    typeName: string,
    sigFile: string,
    pdfFile: string)

  /** `_generate_verification_page`: nothing without a signing key;
      otherwise the signature `<pdf name>.sig` in the certificate's
      verification directory, published next to `verify.html`. */
  function VerificationArtifacts(s: Settings, templateType: string, file: string, outputDir: string,
                                 verifyUuid: string, downloadUrl: string): (r: Result<Option<VerificationPage>>)
    ensures s.certKeyId == "" ==> r == Ok(None)
    ensures s.certKeyId != "" ==> (r.Ok? <==> templateType in {"verified", "honor"})
    ensures r.Err? ==> r.error == KeyError(templateType)
  {
    if s.certKeyId == "" then Ok(None)
    else
      var signatureName := Basename(file) + ".sig";
      var signatureFile := PathJoin(PathJoin(outputDir, verifyUuid), signatureName);
      var signatureUrl := VerifyUrl(s, verifyUuid) + "/" + Basename(signatureFile);
      var verifyPageUrl := VerifyUrl(s, verifyUuid) + "/verify.html";
      if templateType == "verified" then
        Ok(Some(VerificationPage(signatureFile, signatureUrl, verifyPageUrl, "idverified", "Verified",
          Basename(signatureUrl), Basename(downloadUrl))))
      else if templateType == "honor" then
        Ok(Some(VerificationPage(signatureFile, signatureUrl, verifyPageUrl, "honorcode", "Honor Code",
          Basename(signatureUrl), Basename(downloadUrl))))
      else Err(KeyError(templateType))
  }

  /** The signature is named after the PDF, lives in the certificate's
      verification directory and is published under the same directory as
      the verification page; the page offers the PDF by its own name. */
  lemma VerificationPageNames(s: Settings, templateType: string, downloadDir: string, downloadUuid: string,
                              file: string, outputDir: string, verifyUuid: string)
    requires file != "" && '/' !in file && templateType in {"verified", "honor"} && s.certKeyId != ""
    ensures var r := VerificationArtifacts(s, templateType, CertificatePath(downloadDir, downloadUuid, file),
                                           outputDir, verifyUuid, DownloadUrl(s, downloadUuid, file));
      r.Ok? && r.value.Some? &&
      r.value.value.signatureFile == PathJoin(PathJoin(outputDir, verifyUuid), file + ".sig") &&
      r.value.value.signatureUrl == VerifyUrl(s, verifyUuid) + "/" + file + ".sig" &&
      r.value.value.verifyPageUrl == VerifyUrl(s, verifyUuid) + "/verify.html" &&
      r.value.value.sigFile == file + ".sig" &&
      r.value.value.pdfFile == file &&
      (r.value.value.typeCode == "idverified" <==> templateType == "verified")
  {
    var path := CertificatePath(downloadDir, downloadUuid, file);
    BasenameOfJoin(PathJoin(downloadDir, downloadUuid), file);
    assert Basename(path) == file;
    var name := file + ".sig";
    assert '/' !in name by {
      forall i | 0 <= i < |name| ensures name[i] != '/' {
        if i < |file| { assert name[i] == file[i]; }
      }
    }
    var signatureFile := PathJoin(PathJoin(outputDir, verifyUuid), name);
    BasenameOfJoin(PathJoin(outputDir, verifyUuid), name);
    var signatureUrl := VerifyUrl(s, verifyUuid) + "/" + name;
    AppendAssoc(VerifyUrl(s, verifyUuid) + "/", file, ".sig");
    BasenameOfSuffix(VerifyUrl(s, verifyUuid), name);
    DownloadUrlNamesFile(s, downloadUuid, file);
    var r := VerificationArtifacts(s, templateType, path, outputDir, verifyUuid, DownloadUrl(s, downloadUuid, file));
    assert r.value.value.signatureFile == signatureFile && r.value.value.signatureUrl == signatureUrl;
  }
}
