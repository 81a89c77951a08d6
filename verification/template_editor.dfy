/** The template editor dialog and the template preview dialog: the editor's
    form, placeholder insertion at the cursor, the job-type toggles, and the
    sample-data previews both dialogs render; plus the job-type badges. */
module TemplateEditor {

  import opened Opt
  import opened Text
  import opened TagLists
  import opened Replace
  import opened Templates

  // ---------------------------------------------------------------------------
  // The form

  const EmptyForm := TemplateForm("", CoverLetter, "", [], false)

  /** The form shown when the dialog opens: the template's fields, or an empty
      cover letter for a new template. */
  function FormFor(template: Option<Template>): (r: TemplateForm)
    ensures template.None? ==> r == EmptyForm
    ensures template.Some? ==> r.name == template.value.name && r.content == template.value.content
    ensures template.Some? ==> r.kind == template.value.kind && r.jobTypes == template.value.jobTypes
    ensures template.Some? ==> r.isDefault == template.value.isDefault
  {
    match template
    case None => EmptyForm
    case Some(t) => TemplateForm(t.name, t.kind, t.content, t.jobTypes, t.isDefault)
  }

  /** Saving a form that was opened and not edited changes only the
      modification time and the stored preview. */
  lemma SaveUneditedForm(t: Template, now: int)
    ensures ApplyForm(t, FormFor(Some(t)), now) == t.(lastModified := now, preview := PreviewOf(t.content))
  {}

  /** One field of the form changed. */
  datatype FormChange =
    | SetName(name: String)
    | SetKind(kind: TemplateType)
    | SetContent(content: String)
    | SetIsDefault(isDefault: bool)

  /** `{ ...prev, [field]: value }`: only the named field changes. */
  function ChangeForm(f: TemplateForm, c: FormChange): (r: TemplateForm)
    ensures r.jobTypes == f.jobTypes
    ensures c.SetName? ==> r.name == c.name
    ensures !c.SetName? ==> r.name == f.name
    ensures c.SetKind? ==> r.kind == c.kind
    ensures !c.SetKind? ==> r.kind == f.kind
    ensures c.SetContent? ==> r.content == c.content
    ensures !c.SetContent? ==> r.content == f.content
    ensures c.SetIsDefault? ==> r.isDefault == c.isDefault
    ensures !c.SetIsDefault? ==> r.isDefault == f.isDefault
  {
    match c
    case SetName(n) => f.(name := n)
    case SetKind(k) => f.(kind := k)
    case SetContent(s) => f.(content := s)
    case SetIsDefault(b) => f.(isDefault := b)
  }

  /** A job-type checkbox: selected types are unselected, others appended. */
  function ToggleJobType(f: TemplateForm, jobType: String): (r: TemplateForm)
    ensures jobType in r.jobTypes <==> jobType !in f.jobTypes
    ensures forall other | other != jobType :: other in r.jobTypes <==> other in f.jobTypes
    ensures jobType !in f.jobTypes ==> r.jobTypes == f.jobTypes + [jobType]
    ensures RemoveAll(r.jobTypes, jobType) == RemoveAll(f.jobTypes, jobType)
    ensures r.name == f.name && r.content == f.content && r.kind == f.kind && r.isDefault == f.isDefault
  {
    ToggleKeepsOthers(f.jobTypes, jobType);
    f.(jobTypes := Toggle(f.jobTypes, jobType))
  }

  /** Checking and unchecking a job type leaves the form as it was. */
  lemma ToggleJobTypeTwice(f: TemplateForm, jobType: String)
    requires jobType !in f.jobTypes
    ensures ToggleJobType(ToggleJobType(f, jobType), jobType) == f
  {
    ToggleTwiceRestores(f.jobTypes, jobType);
  }

  /** Inserting a placeholder: the text before the selection, the placeholder,
      and the text after it. The selection itself is replaced. */
  function InsertAtSelection(text: String, start: int, end: int, placeholder: String): (r: String)
    ensures 0 <= start <= end <= |text| ==> r == text[..start] + placeholder + text[end..]
  {
    Substring(text, 0, start) + placeholder + Substring(text, end, |text|)
  }

  /** With a caret (empty selection) inside the text, the insertion keeps the
      whole text around the placeholder, and the caret's new position
      `start + |placeholder|` is just after the placeholder. */
  lemma InsertAtCaret(text: String, start: int, placeholder: String)
    requires 0 <= start <= |text|
    ensures |InsertAtSelection(text, start, start, placeholder)| == |text| + |placeholder|
    ensures InsertAtSelection(text, start, start, placeholder)[start..start + |placeholder|] == placeholder
    ensures InsertAtSelection(text, start, start, placeholder)[..start] == text[..start]
    ensures InsertAtSelection(text, start, start, placeholder)[start + |placeholder|..] == text[start..]
    ensures OccursAt(InsertAtSelection(text, start, start, placeholder), placeholder, start)
  {
    var r := InsertAtSelection(text, start, start, placeholder);
    assert r == text[..start] + placeholder + text[start..];
  }

  // ---------------------------------------------------------------------------
  // Previews with sample data

  const CompanyKey := "{{COMPANY_NAME}}"
  const PositionKey := "{{POSITION_TITLE}}"
  const UserNameKey := "{{USER_NAME}}"
  const UserEmailKey := "{{USER_EMAIL}}"
  const UserPhoneKey := "{{USER_PHONE}}"
  const SkillsKey := "{{SKILLS}}"
  const ExperienceKey := "{{EXPERIENCE}}"
  const EducationKey := "{{EDUCATION}}"
  const DateKey := "{{DATE}}"

  /** The nine placeholders the editor offers, in the order they are replaced. */
  const PlaceholderKeys: seq<String> := [CompanyKey, PositionKey, UserNameKey, UserEmailKey,
    UserPhoneKey, SkillsKey, ExperienceKey, EducationKey, DateKey]

  // The sample values of the two previews; the longer ones are written in
  // parts.
  const SampleCompany := "TechCorp Inc."
  const SamplePosition := "Frontend Developer"
  const SampleUserName := "John Doe"
  const SampleUserEmail := "john.doe@email.com"
  const SampleUserPhone := "+1 (555) 123-4567"
  const EditorSkills := "React, JavaScript, " + "HTML/CSS"
  const EditorExperience := "2 years of web " + "development experience"
  const EditorEducation := "Bachelor's in " + "Computer Science"
  const DialogSkills := "React, JavaScript, " + "HTML/CSS, Node.js"
  const DialogExperience := EditorExperience + (" with focus on " + "modern frameworks")
  const DialogEducation := EditorEducation + " from State University"

  /** The editor's sample data; `date` is today's date as the browser formats
      it. An empty value falls back to the key itself (`value || key`). */
  function EditorSamples(date: String): (r: seq<Placeholder>)
    ensures |r| == 9 && forall i | 0 <= i < 9 :: r[i].key == PlaceholderKeys[i]
  {
    [ Placeholder(CompanyKey, SampleCompany),
      Placeholder(PositionKey, SamplePosition),
      Placeholder(UserNameKey, SampleUserName),
      Placeholder(UserEmailKey, SampleUserEmail),
      Placeholder(UserPhoneKey, SampleUserPhone),
      Placeholder(SkillsKey, EditorSkills),
      Placeholder(ExperienceKey, EditorExperience),
      Placeholder(EducationKey, EditorEducation),
      Placeholder(DateKey, if date == [] then DateKey else date) ]
  }

  /** The preview dialog's sample data: longer skills, experience and
      education texts than the editor's. */
  function PreviewSamples(date: String): (r: seq<Placeholder>)
    ensures |r| == 9 && forall i | 0 <= i < 9 :: r[i].key == PlaceholderKeys[i]
  {
    [ Placeholder(CompanyKey, SampleCompany),
      Placeholder(PositionKey, SamplePosition),
      Placeholder(UserNameKey, SampleUserName),
      Placeholder(UserEmailKey, SampleUserEmail),
      Placeholder(UserPhoneKey, SampleUserPhone),
      Placeholder(SkillsKey, DialogSkills),
      Placeholder(ExperienceKey, DialogExperience),
      Placeholder(EducationKey, DialogEducation),
      Placeholder(DateKey, date) ]
  }

  /** A table holding the nine keys in order passes placeholder-free text
      through, and when well formed leaves none of the nine behind. */
  lemma NineKeyTable(content: String, t: seq<Placeholder>)
    requires |t| == 9 && forall i | 0 <= i < 9 :: t[i].key == PlaceholderKeys[i]
    ensures (forall i | 0 <= i < 9 :: !Contains(content, PlaceholderKeys[i])) ==> ApplyTable(content, t) == content
    ensures WellFormedTable(t) ==> forall i | 0 <= i < 9 :: !Contains(ApplyTable(content, t), PlaceholderKeys[i])
  {
    if forall i | 0 <= i < 9 :: !Contains(content, PlaceholderKeys[i]) {
      ApplyTableUnchanged(content, t);
    }
    if WellFormedTable(t) {
      forall i | 0 <= i < 9 ensures !Contains(ApplyTable(content, t), PlaceholderKeys[i]) {
        ApplyTableLeavesNoKey(content, t, i);
      }
    }
  }

  /** The editor's live preview: plain text shows as typed, and with a
      brace-free date every placeholder is filled. */
  function EditorPreview(content: String, date: String): (r: String)
    ensures (forall i | 0 <= i < 9 :: !Contains(content, PlaceholderKeys[i])) ==> r == content
    ensures SafeValue(date) ==> forall i | 0 <= i < 9 :: !Contains(r, PlaceholderKeys[i])
  {
    NineKeyTable(content, EditorSamples(date));
    EditorTableWellFormed(date);
    ApplyTable(content, EditorSamples(date))
  }

  /** The preview dialog: the same with the dialog's sample table. */
  function DialogPreview(content: String, date: String): (r: String)
    ensures (forall i | 0 <= i < 9 :: !Contains(content, PlaceholderKeys[i])) ==> r == content
    ensures SafeValue(date) ==> forall i | 0 <= i < 9 :: !Contains(r, PlaceholderKeys[i])
  {
    NineKeyTable(content, PreviewSamples(date));
    DialogTableWellFormed(date);
    ApplyTable(content, PreviewSamples(date))
  }

  lemma KeysArePlaceholders()
    ensures forall i | 0 <= i < 9 :: IsPlaceholderKey(PlaceholderKeys[i])
  {
    forall i | 0 <= i < 9 ensures IsPlaceholderKey(PlaceholderKeys[i]) {
      if i == 0 { KeyShape(CompanyKey); }
      else if i == 1 { KeyShape(PositionKey); }
      else if i == 2 { KeyShape(UserNameKey); }
      else if i == 3 { KeyShape(UserEmailKey); }
      else if i == 4 { KeyShape(UserPhoneKey); }
      else if i == 5 { KeyShape(SkillsKey); }
      else if i == 6 { KeyShape(ExperienceKey); }
      else if i == 7 { KeyShape(EducationKey); }
      else { KeyShape(DateKey); }
    }
  }

  lemma KeyShape(k: String)
    requires k in {CompanyKey, PositionKey, UserNameKey, UserEmailKey, UserPhoneKey, SkillsKey, ExperienceKey, EducationKey, DateKey}
    ensures IsPlaceholderKey(k)
  {}

  /** A value with no brace and, at index `t`, a character no placeholder uses. */
  lemma SafeBecause(v: String, t: nat)
    requires NoBraces(v) && t < |v| && !KeyAlphabet(v[t])
    ensures SafeValue(v)
  {}

  // Each fixed sample value contains no brace and has a lower-case letter or
  // another character that no placeholder uses.
  lemma CompanyValueSafe() ensures SafeValue(SampleCompany) { SafeBecause(SampleCompany, 1); }
  lemma PositionValueSafe() ensures SafeValue(SamplePosition) { SafeBecause(SamplePosition, 1); }
  lemma UserNameValueSafe() ensures SafeValue(SampleUserName) { SafeBecause(SampleUserName, 1); }
  lemma UserEmailValueSafe() ensures SafeValue(SampleUserEmail) { SafeBecause(SampleUserEmail, 0); }
  lemma UserPhoneValueSafe() ensures SafeValue(SampleUserPhone) { SafeBecause(SampleUserPhone, 0); }
  lemma EditorSkillsValueSafe() ensures SafeValue(EditorSkills) {
    NoBracesConcat("React, JavaScript, ", "HTML/CSS");
    SafeBecause(EditorSkills, 1);
  }
  lemma EditorExperienceValueSafe() ensures SafeValue(EditorExperience) {
    NoBracesConcat("2 years of web ", "development experience");
    SafeBecause(EditorExperience, 0);
  }
  lemma EditorEducationValueSafe() ensures SafeValue(EditorEducation) {
    NoBracesConcat("Bachelor's in ", "Computer Science");
    SafeBecause(EditorEducation, 1);
  }
  lemma DialogSkillsValueSafe() ensures SafeValue(DialogSkills) {
    NoBracesConcat("React, JavaScript, ", "HTML/CSS, Node.js");
    SafeBecause(DialogSkills, 1);
  }
  lemma DialogExperienceValueSafe() ensures SafeValue(DialogExperience) {
    EditorExperienceValueSafe();
    NoBracesConcat(" with focus on ", "modern frameworks");
    NoBracesConcat(EditorExperience, " with focus on " + "modern frameworks");
    SafeBecause(DialogExperience, 0);
  }
  lemma DialogEducationValueSafe() ensures SafeValue(DialogEducation) {
    EditorEducationValueSafe();
    NoBracesConcat(EditorEducation, " from State University");
    SafeBecause(DialogEducation, 1);
  }

  /** With a date that looks like a date (no braces, some digit or separator),
      the editor's preview shows none of the nine placeholders. */
  lemma EditorPreviewFillsAll(content: String, date: String, i: int)
    requires SafeValue(date) && 0 <= i < 9
    ensures !Contains(EditorPreview(content, date), PlaceholderKeys[i])
  {
    EditorTableWellFormed(date);
    ApplyTableLeavesNoKey(content, EditorSamples(date), i);
  }

  lemma EditorTableWellFormed(date: String)
    ensures SafeValue(date) ==> WellFormedTable(EditorSamples(date))
  {
    if SafeValue(date) {
      var t := EditorSamples(date);
      forall i | 0 <= i < 9 ensures SafeValue(t[i].value) {
        if i == 0 { CompanyValueSafe(); }
        else if i == 1 { PositionValueSafe(); }
        else if i == 2 { UserNameValueSafe(); }
        else if i == 3 { UserEmailValueSafe(); }
        else if i == 4 { UserPhoneValueSafe(); }
        else if i == 5 { EditorSkillsValueSafe(); }
        else if i == 6 { EditorExperienceValueSafe(); }
        else if i == 7 { EditorEducationValueSafe(); }
      }
      TableOfPlaceholderKeys(t);
    }
  }

  /** Nine entries under the nine keys, each with a safe value, form a
      well-formed table. */
  lemma TableOfPlaceholderKeys(t: seq<Placeholder>)
    requires |t| == 9 && forall i | 0 <= i < 9 :: t[i].key == PlaceholderKeys[i]
    requires forall i | 0 <= i < 9 :: SafeValue(t[i].value)
    ensures WellFormedTable(t)
  {
    KeysArePlaceholders();
  }

  /** The same for the preview dialog. */
  lemma DialogPreviewFillsAll(content: String, date: String, i: int)
    requires SafeValue(date) && 0 <= i < 9
    ensures !Contains(DialogPreview(content, date), PlaceholderKeys[i])
  {
    DialogTableWellFormed(date);
    ApplyTableLeavesNoKey(content, PreviewSamples(date), i);
  }

  lemma DialogTableWellFormed(date: String)
    ensures SafeValue(date) ==> WellFormedTable(PreviewSamples(date))
  {
    if SafeValue(date) {
      var t := PreviewSamples(date);
      forall i | 0 <= i < 9 ensures SafeValue(t[i].value) {
        if i == 0 { CompanyValueSafe(); }
        else if i == 1 { PositionValueSafe(); }
        else if i == 2 { UserNameValueSafe(); }
        else if i == 3 { UserEmailValueSafe(); }
        else if i == 4 { UserPhoneValueSafe(); }
        else if i == 5 { DialogSkillsValueSafe(); }
        else if i == 6 { DialogExperienceValueSafe(); }
        else if i == 7 { DialogEducationValueSafe(); }
      }
      TableOfPlaceholderKeys(t);
    }
  }

  /** Content without placeholders is previewed verbatim by both dialogs. */
  lemma PreviewOfPlainText(content: String, date: String)
    requires forall i | 0 <= i < 9 :: !Contains(content, PlaceholderKeys[i])
    ensures EditorPreview(content, date) == content
    ensures DialogPreview(content, date) == content
  {
    ApplyTableUnchanged(content, EditorSamples(date));
    ApplyTableUnchanged(content, PreviewSamples(date));
  }

  /** In the editor an empty date leaves `{{DATE}}` standing: its replacement
      step is the identity. */
  lemma EmptyDateKeepsDateKey(s: String)
    ensures ReplaceAll(s, DateKey, EditorSamples([])[8].value) == s
  {
    ReplaceByItself(s, DateKey);
  }

  // ---------------------------------------------------------------------------
  // Job-type badges in the preview dialog

  /** The job types the editor offers. */
  const KnownJobTypes: set<String> := {"web-developer", "full-stack", "ai-intern", "ai-developer", "internship"}

  /** Badge colour classes; anything unknown gets the general grey. */
  function JobTypeColor(jobType: String): (r: String)
    ensures jobType !in KnownJobTypes ==> r == "bg-gray-100 text-gray-800"
  {
    if jobType == "web-developer" then "bg-blue-100 text-blue-800"
    else if jobType == "full-stack" then "bg-green-100 text-green-800"
    else if jobType == "ai-intern" then "bg-purple-100 text-purple-800"
    else if jobType == "ai-developer" then "bg-indigo-100 text-indigo-800"
    else if jobType == "internship" then "bg-orange-100 text-orange-800"
    else "bg-gray-100 text-gray-800"
  }

  /** The five known job types get five different colours. */
  lemma JobTypeColorsDistinct(a: String, b: String)
    requires a in KnownJobTypes && b in KnownJobTypes
    requires a != b
    ensures JobTypeColor(a) != JobTypeColor(b)
  {}

  /** Only an unknown job type is drawn in the general grey. */
  lemma KnownJobTypeNotGrey(a: String)
    requires a in KnownJobTypes
    ensures JobTypeColor(a) != "bg-gray-100 text-gray-800"
  {}

  /** `s.replace('-', ' ')`: only the first hyphen becomes a space. */
  function ReplaceFirstHyphen(s: String): (r: String)
    ensures |r| == |s|
    ensures '-' !in s ==> r == s
    ensures forall i | 0 <= i < |s| && s[i] != '-' :: r[i] == s[i]
    ensures CountChar(r, '-') + (if '-' in s then 1 else 0) == CountChar(s, '-')
  {
    if s == [] then []
    else if s[0] == '-' then
      assert s == [s[0]] + s[1..];
      " " + s[1..]
    else
      assert s == [s[0]] + s[1..];
      [s[0]] + ReplaceFirstHyphen(s[1..])
  }


  /** `\w` in a JavaScript regular expression. */
  predicate IsWordChar(c: char) {
    'a' <= c <= 'z' || 'A' <= c <= 'Z' || '0' <= c <= '9' || c == '_'
  }

  function UpperChar(c: char): (r: char)
    ensures 'a' <= c <= 'z' ==> 'A' <= r <= 'Z' && LowerChar(r) == c
    ensures !('a' <= c <= 'z') ==> r == c
  {
    if 'a' <= c <= 'z' then (c as int - 32) as char else c
  }

  /** The character at `i` after capitalisation: upper-cased when it starts
      a word, that is, when it is first or follows a non-word character. */
  function CapAt(s: String, i: int): char
    requires 0 <= i < |s|
  {
    if i == 0 || !IsWordChar(s[i - 1]) then UpperChar(s[i]) else s[i]
  }

  /** `s.replace(/\b\w/g, l => l.toUpperCase())`. */
  function CapitalizeWords(s: String): (r: String)
    ensures |r| == |s|
    ensures forall i | 0 <= i < |s| :: r[i] == CapAt(s, i)
  {
    seq(|s|, i requires 0 <= i < |s| => CapAt(s, i))
  }

  /** After capitalisation no word starts with a lower-case letter, and every
      character inside a word is left alone. */
  lemma CapitalizeWordsSpec(s: String, i: int)
    requires 0 <= i < |s|
    ensures (i == 0 || !IsWordChar(s[i - 1])) ==> !('a' <= CapitalizeWords(s)[i] <= 'z')
    ensures (i > 0 && IsWordChar(s[i - 1])) ==> CapitalizeWords(s)[i] == s[i]
    ensures LowerChar(CapitalizeWords(s)[i]) == LowerChar(s[i])
  {}

  /** The badge text: `type.replace('-', ' ')` then each word capitalised. */
  function JobTypeLabel(jobType: String): (r: String)
    ensures |r| == |jobType|
  {
    CapitalizeWords(ReplaceFirstHyphen(jobType))
  }

  /** A label differs from its job type only in letter case and in the first
      hyphen having become a space. */
  lemma LabelOnlyRecases(jobType: String)
    ensures Lower(JobTypeLabel(jobType)) == Lower(ReplaceFirstHyphen(jobType))
  {
    var s := ReplaceFirstHyphen(jobType);
    forall i | 0 <= i < |s| ensures LowerChar(CapitalizeWords(s)[i]) == LowerChar(s[i]) {
      CapitalizeWordsSpec(s, i);
    }
  }
}
