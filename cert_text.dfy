/** The texts a certificate prints (gen_cert.py): translations, the grade
    and designation lines, the disclaimer and verification sentences of the
    v4 renderer, the substitution context its templates are filled from, and
    the interstitial line of the Stanford renderer. */
module CertText {
  import opened Values
  import opened TextFormat
  import opened CertConfig

  /** `m.get(k, default)` on a text map. */
  function Lookup(m: map<string, string>, k: string, default: string): (r: string)
    ensures k in m ==> r == m[k]
    ensures k !in m ==> r == default
  {
    if k in m then m[k] else default
  }

  // ---------------------------------------------------------------------
  // Translations

  /** A translated string of the v4 renderer: the course's translation for
      its locale, else the default locale's, else ''. */
  function Translated(defaults: map<string, string>, course: map<string, map<string, string>>,
                      locale: string, key: string): string
  {
    var fallback := Lookup(defaults, key, "");
    if locale in course then Lookup(course[locale], key, fallback) else fallback
  }

  /** The precedence of translations, from the course's own to none. */
  lemma TranslatedPrecedence(defaults: map<string, string>, course: map<string, map<string, string>>,
                             locale: string, key: string)
    ensures locale in course && key in course[locale] ==>
      Translated(defaults, course, locale, key) == course[locale][key]
    ensures (locale !in course || key !in course[locale]) && key in defaults ==>
      Translated(defaults, course, locale, key) == defaults[key]
    ensures (locale !in course || key !in course[locale]) && key !in defaults ==>
      Translated(defaults, course, locale, key) == ""
  {
  }

  // ---------------------------------------------------------------------
  // Grade and designation

  /** The grade line: for a grade other than a pass (in any case), the
      grade interstitial with the grade in bold, then two line breaks;
      nothing otherwise. */
  function GradeAchievement(grade: string, gradeInterstitial: string): Result<string> {
    if grade != "" && Lower(grade) != "pass" then
      var line :- Format(gradeInterstitial, map["grade" := "<b>" + grade + "</b>"]);
      Ok(line + "<br /><br />")
    else Ok("")
  }

  /** The grade line is empty exactly when there is no grade or the grade
      is a pass, in any case (PASS and Pass print no grade line either); a
      grade line ends with the two breaks. */
  lemma GradeAchievementEmptyIffPass(grade: string, gradeInterstitial: string)
    ensures grade == "" || Lower(grade) == "pass" ==> GradeAchievement(grade, gradeInterstitial) == Ok("")
    ensures grade != "" && Lower(grade) != "pass" && GradeAchievement(grade, gradeInterstitial).Ok? ==>
      var line := GradeAchievement(grade, gradeInterstitial).value;
      |line| >= 12 && line[|line| - 12..] == "<br /><br />"
  {
  }

  /** A grade interstitial with one `{grade}` field shows the grade in bold
      at that place. */
  lemma GradeShownInTemplate(grade: string, before: string, after: string)
    requires grade != "" && Lower(grade) != "pass" && Plain(before) && Plain(after)
    ensures GradeAchievement(grade, before + "{grade}" + after) ==
      Ok(before + "<b>" + grade + "</b>" + after + "<br /><br />")
  {
    var ctx := map["grade" := "<b>" + grade + "</b>"];
    assert before + "{grade}" + after == before + "{" + "grade" + "}" + after;
    FormatOneField(before, "grade", after, ctx);
    assert before + ctx["grade"] + after == before + "<b>" + grade + "</b>" + after;
    assert Format(before + "{grade}" + after, ctx) == Ok(before + "<b>" + grade + "</b>" + after);
  }

  /** Index of the first designation group, in iteration order, listing
      the student's designation among its titles; none without a
      designation. */
  function FirstDesignation(groups: seq<(string, Designation)>, designation: Option<string>, from: nat)
    : (r: Option<nat>)
    requires from <= |groups|
    ensures r.Some? ==> (from <= r.value < |groups| && designation.Some? &&
      designation.value in groups[r.value].1.titles &&
      forall j :: from <= j < r.value ==> designation.value !in groups[j].1.titles)
    ensures r.None? && designation.Some? ==> forall j :: from <= j < |groups| ==> designation.value !in groups[j].1.titles
    decreases |groups| - from
  {
    if designation.None? || from == |groups| then None
    else if designation.value in groups[from].1.titles then Some(from)
    else FirstDesignation(groups, designation, from + 1)
  }

  /** The designation loop of the v4 renderer: the groups are searched in
      order and the search stops at the first match. */
  method FindDesignation(groups: seq<(string, Designation)>, designation: Option<string>)
    returns (found: Option<nat>)
    ensures found == FirstDesignation(groups, designation, 0)
  {
    found := None;
    var i := 0;
    while i < |groups|
      invariant 0 <= i <= |groups|
      invariant FirstDesignation(groups, designation, 0) == FirstDesignation(groups, designation, i)
    {
      var (key, value) := groups[i];
      if designation.Some? && designation.value in value.titles {
        found := Some(i);
        return;
      }
      i := i + 1;
    }
  }

  /** The name and achievement texts of a v4 certificate. */
  datatype Achievements = Achievements(
    studentName: string,
    achievementsString: string,
    descriptionString: string,
    designationTag: string)

  /** A designation group that matched replaces the achievement texts with
      its credits and the course's CREDITS (KeyError when unset), tags the
      certificate with the group's key and appends the designation to the
      name unless it is 'Other' or 'None'. */
  function WithDesignation(data: CertData, designation: Option<string>, a: Achievements): Result<Achievements> {
    match FirstDesignation(data.designations, designation, 0)
    case None => Ok(a)
    case Some(i) =>
      var (key, group) := data.designations[i];
      var name := if designation.value !in ["Other", "None"] then a.studentName + ", " + designation.value
                  else a.studentName;
      if data.credits.None? then Err(KeyError("CREDITS"))
      else Ok(Achievements(name, group.credits, data.credits.value, key))
  }

  /** What a designation changes, and that nothing changes without a
      matching group. */
  lemma WithDesignationMeaning(data: CertData, designation: Option<string>, a: Achievements)
    ensures FirstDesignation(data.designations, designation, 0).None? ==> WithDesignation(data, designation, a) == Ok(a)
    ensures FirstDesignation(data.designations, designation, 0).Some? ==>
      var i := FirstDesignation(data.designations, designation, 0).value;
      var r := WithDesignation(data, designation, a);
      (r.Err? <==> data.credits.None?) &&
      (r.Ok? ==>
        r.value.designationTag == data.designations[i].0 &&
        r.value.achievementsString == data.designations[i].1.credits &&
        r.value.descriptionString == data.credits.value &&
        (r.value.studentName == a.studentName + ", " + designation.value <==>
          designation.value != "Other" && designation.value != "None") &&
        (r.value.studentName == a.studentName <==> designation.value == "Other" || designation.value == "None"))
  {
    var r := WithDesignation(data, designation, a);
    if FirstDesignation(data.designations, designation, 0).Some? && r.Ok? {
      var extended := a.studentName + ", " + designation.value;
      assert |extended| > |a.studentName|;
    }
  }

  // ---------------------------------------------------------------------
  // Disclaimer and verification

  /** The disclaimer is printed unless the course has its own
      (HAS_DISCLAIMER). */
  function Disclaimer(data: CertData, disclaimerText: string): (r: string)
    ensures data.hasDisclaimer ==> r == ""
    ensures !data.hasDisclaimer ==> r == disclaimerText
  {
    if data.hasDisclaimer then "" else disclaimerText
  }

  /** The verification link: the certificate's verification address, in
      bold, linking to itself. */
  function VerifyLink(s: Settings, verifyUuid: string): string {
    "<a href='" + VerifyUrl(s, verifyUuid) + "'><b>" + VerifyUrl(s, verifyUuid) + "</b></a>"
  }

  /** The verification sentence of the v4 renderer: the translated text
      with `{verify_link}` filled in, or nothing without verification. */
  function VerifyText(verify: bool, verifyText: string, s: Settings, verifyUuid: string): Result<string> {
    if verify then Format(verifyText, map["verify_link" := VerifyLink(s, verifyUuid)]) else Ok("")
  }

  /** Without verification the sentence is empty; with it, a text with one
      `{verify_link}` field shows the link there. */
  lemma VerifyTextMeaning(s: Settings, verifyUuid: string, before: string, after: string)
    requires Plain(before) && Plain(after)
    ensures VerifyText(false, before + "{verify_link}" + after, s, verifyUuid) == Ok("")
    ensures VerifyText(true, before + "{verify_link}" + after, s, verifyUuid) ==
      Ok(before + VerifyLink(s, verifyUuid) + after)
  {
    var ctx := map["verify_link" := VerifyLink(s, verifyUuid)];
    assert before + "{verify_link}" + after == before + "{" + "verify_link" + "}" + after;
    FormatOneField(before, "verify_link", after, ctx);
  }

  // ---------------------------------------------------------------------
  // The substitution context

  /** The fields the course information templates of a v4 certificate can
      use. */
  const ContextKeys: set<string> := {
    "date_string", "student_name", "successfully_completed", "course_title", "achievements_string",
    "achievements_description_string", "designation_tag", "disclaimer_text", "verify_text"}

  /** The context the course information is drawn with. */
  function V4Context(dateString: string, successfullyCompleted: string, courseTitle: string,
                     a: Achievements, disclaimerText: string, verifyText: string): (ctx: map<string, string>)
    ensures ctx.Keys == ContextKeys
    ensures ctx["student_name"] == a.studentName && ctx["designation_tag"] == a.designationTag
    ensures ctx["date_string"] == dateString && ctx["course_title"] == courseTitle
  {
    map[
      "date_string" := dateString,
      "student_name" := a.studentName,
      "successfully_completed" := successfullyCompleted,
      "course_title" := courseTitle,
      "achievements_string" := a.achievementsString,
      "achievements_description_string" := a.descriptionString,
      "designation_tag" := a.designationTag,
      "disclaimer_text" := disclaimerText,
      "verify_text" := verifyText
    ]
  }

  /** Every field of the context can be used in a template. */
  lemma ContextFieldsResolve(dateString: string, successfullyCompleted: string, courseTitle: string,
                             a: Achievements, disclaimerText: string, verifyText: string, k: string, after: string)
    requires k in ContextKeys && Plain(k)
    ensures var ctx := V4Context(dateString, successfullyCompleted, courseTitle, a, disclaimerText, verifyText);
      Format("{" + k + "}" + after, ctx) ==
        (match Format(after, ctx) case Ok(s) => Ok(ctx[k] + s) case Err(e) => Err(e))
  {
    FormatField(k, after, V4Context(dateString, successfullyCompleted, courseTitle, a, disclaimerText, verifyText));
  }

  // ---------------------------------------------------------------------
  // Character ranges

  /** Some character of `s` has a code point at or above `value`. */
  predicate HasCharacterAbove(s: string, value: int) {
    exists i :: 0 <= i < |s| && s[i] as int >= value
  }

  /** A string that needs the Unicode font is not Latin-1 either. */
  lemma UnicodeIsNonLatin(s: string)
    ensures HasCharacterAbove(s, 0x500) ==> HasCharacterAbove(s, 0x100)
  {
  }

  // ---------------------------------------------------------------------
  // Stanford interstitial

  /** The words between "has successfully completed" and the course kind:
      a single space, or the grade's configured text in bold with a space
      on each side. */
  function StanfordInterstitial(grade: string, interstitial: map<string, string>): string {
    if grade == "" then " "
    else
      var tmp := Lookup(interstitial, grade, " ");
      if tmp != " " then " <b>" + tmp + "</b> " else tmp
  }

  /** The interstitial is bold exactly when the grade has a configured text
      other than a single space. */
  lemma StanfordInterstitialMeaning(grade: string, interstitial: map<string, string>)
    ensures grade != "" && grade in interstitial && interstitial[grade] != " " ==>
      StanfordInterstitial(grade, interstitial) == " <b>" + interstitial[grade] + "</b> "
    ensures grade == "" || grade !in interstitial || interstitial[grade] == " " ==>
      StanfordInterstitial(grade, interstitial) == " "
  {
  }

  /** The Stanford completion sentence. */
  function StanfordCompleted(grade: string, interstitial: map<string, string>): string {
    "has successfully completed" + StanfordInterstitial(grade, interstitial) + "a free online offering of"
  }

  /** The Stanford authenticity sentence. */
  function AuthenticityText(certLabel: string, s: Settings, verifyUuid: string): string {
    "Authenticity of this " + certLabel + " can be verified at " +
    ("<a href='" + VerifyUrl(s, verifyUuid) + "'>") + ("<b>" + VerifyUrl(s, verifyUuid) + "</b></a>")
  }

  /** The template the Stanford renderer formats the authenticity sentence
      from, as its three adjacent literals. */
  function AuthenticityTemplate(): string {
    AuthenticityLead() + AuthenticityAnchor() + AuthenticityAnchorText()
  }

  function AuthenticityLead(): string {
    "Authenticity of this " + Placeholder("cert_label") + " can be verified at "
  }

  function AuthenticityAnchor(): string {
    "<a href='" + VerifyAddressTemplate() + "'>"
  }

  function AuthenticityAnchorText(): string {
    "<b>" + VerifyAddressTemplate() + "</b></a>"
  }

  function VerifyAddressTemplate(): string {
    Placeholder("verify_url") + "/" + Placeholder("verify_path") + "/" + Placeholder("verify_uuid")
  }

  /** The fields the authenticity template is formatted with. */
  function AuthenticityContext(certLabel: string, s: Settings, verifyUuid: string): map<string, string> {
    map["cert_label" := certLabel, "verify_url" := s.certVerifyUrl, "verify_path" := s.s3VerifyPath,
        "verify_uuid" := verifyUuid]
  }

  lemma VerifyAddressFilled(ctx: map<string, string>)
    requires "verify_url" in ctx && "verify_path" in ctx && "verify_uuid" in ctx
    ensures Format(VerifyAddressTemplate(), ctx) ==
      Ok(ctx["verify_url"] + "/" + ctx["verify_path"] + "/" + ctx["verify_uuid"])
  {
    FormatPlain("/", ctx);
    FormatPlaceholder("verify_url", ctx);
    FormatPlaceholder("verify_path", ctx);
    FormatPlaceholder("verify_uuid", ctx);
    var t := Placeholder("verify_url");
    FormatAppend(t, "/", ctx);
    t := t + "/";
    FormatAppend(t, Placeholder("verify_path"), ctx);
    t := t + Placeholder("verify_path");
    FormatAppend(t, "/", ctx);
    t := t + "/";
    FormatAppend(t, Placeholder("verify_uuid"), ctx);
  }

  lemma AuthenticityLeadFilled(ctx: map<string, string>)
    requires "cert_label" in ctx
    ensures Format(AuthenticityLead(), ctx) == Ok("Authenticity of this " + ctx["cert_label"] + " can be verified at ")
  {
    PlainThenField("Authenticity of this ", "cert_label", ctx);
    FormatPlain(" can be verified at ", ctx);
    FormatAppend("Authenticity of this " + Placeholder("cert_label"), " can be verified at ", ctx);
  }

  lemma AuthenticityAnchorFilled(ctx: map<string, string>, address: string)
    requires Format(VerifyAddressTemplate(), ctx) == Ok(address)
    ensures Format(AuthenticityAnchor(), ctx) == Ok("<a href='" + address + "'>")
  {
    FormatPlain("<a href='", ctx);
    FormatPlain("'>", ctx);
    FormatAppend("<a href='", VerifyAddressTemplate(), ctx);
    FormatAppend("<a href='" + VerifyAddressTemplate(), "'>", ctx);
  }

  lemma AuthenticityAnchorTextFilled(ctx: map<string, string>, address: string)
    requires Format(VerifyAddressTemplate(), ctx) == Ok(address)
    ensures Format(AuthenticityAnchorText(), ctx) == Ok("<b>" + address + "</b></a>")
  {
    FormatPlain("<b>", ctx);
    FormatPlain("</b></a>", ctx);
    FormatAppend("<b>", VerifyAddressTemplate(), ctx);
    FormatAppend("<b>" + VerifyAddressTemplate(), "</b></a>", ctx);
  }

  /** Formatting the template with the certificate label, the verification
      site, its path and the certificate's identifier gives the sentence
      drawn: the label, then a link to the verification page whose text is
      its own address. */
  lemma AuthenticityTemplateFilled(certLabel: string, s: Settings, verifyUuid: string)
    ensures Format(AuthenticityTemplate(), AuthenticityContext(certLabel, s, verifyUuid)) ==
      Ok(AuthenticityText(certLabel, s, verifyUuid))
  {
    var ctx := AuthenticityContext(certLabel, s, verifyUuid);
    var address := VerifyUrl(s, verifyUuid);
    VerifyAddressFilled(ctx);
    AuthenticityLeadFilled(ctx);
    AuthenticityAnchorFilled(ctx, address);
    AuthenticityAnchorTextFilled(ctx, address);
    FormatAppend(AuthenticityLead(), AuthenticityAnchor(), ctx);
    FormatAppend(AuthenticityLead() + AuthenticityAnchor(), AuthenticityAnchorText(), ctx);
  }
}
