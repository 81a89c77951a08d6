/** The profile's documents card: the résumé upload, the cover-letter
    templates and the portfolio links, each list edited by id. */
module ProfileDocuments {

  import opened Opt
  import opened Text
  import opened Seqs

  /** An uploaded file as the card records it; the upload time and the
      object URL come from the environment. */
  datatype Document = Document(id: int, name: String, mimeType: String, size: int, uploadDate: int, url: String)

  datatype CoverLetter = CoverLetter(id: int, name: String, content: String, createdDate: int)

  datatype PortfolioLink = PortfolioLink(id: int, title: String, url: String, description: String, createdDate: int)

  datatype Documents = Documents(
    resume: Option<Document>,
    coverLetterTemplates: seq<CoverLetter>,
    portfolioLinks: seq<PortfolioLink>)

  /** A chosen or dropped file. */
  datatype FileInfo = FileInfo(name: String, mimeType: String, size: int)

  // ---------------------------------------------------------------------------
  // Résumé

  /** `handleFileUpload`: only the résumé slot takes files; any other target
      is ignored (no update is sent). */
  function FileUpload(docs: Documents, file: FileInfo, target: String, id: int, now: int, url: String): (r: Option<Documents>)
    ensures r.Some? <==> target == "resume"
    ensures r.Some? ==> r.value == docs.(resume := Some(Document(id, file.name, file.mimeType, file.size, now, url)))
  {
    if target == "resume" then Some(docs.(resume := Some(Document(id, file.name, file.mimeType, file.size, now, url))))
    else None
  }

  /** `handleDrop`: the first dropped file is uploaded; an empty drop does
      nothing. */
  function Drop(docs: Documents, files: seq<FileInfo>, target: String, id: int, now: int, url: String): (r: Option<Documents>)
    ensures files == [] ==> r.None?
    ensures files != [] ==> r == FileUpload(docs, files[0], target, id, now, url)
  {
    if files == [] then None else FileUpload(docs, files[0], target, id, now, url)
  }

  function DeleteResume(docs: Documents): (r: Documents)
    ensures r.resume.None? && r.(resume := docs.resume) == docs
  {
    docs.(resume := None)
  }

  /** Uploading replaces the résumé; deleting it afterwards leaves the rest
      of the card as it was. */
  lemma UploadThenDelete(docs: Documents, file: FileInfo, id: int, now: int, url: String)
    ensures DeleteResume(FileUpload(docs, file, "resume", id, now, url).value) == DeleteResume(docs)
  {}

  // ---------------------------------------------------------------------------
  // Cover-letter templates

  /** The "new template" form. */
  datatype Draft = Draft(name: String, content: String)

  const EmptyDraft := Draft("", "")

  /** A template may be added when neither its name nor its content is blank. */
  predicate DraftComplete(d: Draft) {
    !IsBlank(d.name) && !IsBlank(d.content)
  }

  /** `handleAddTemplate`: a complete draft is appended as typed (not
      trimmed), the form cleared and closed; an incomplete one changes
      nothing. Returns the update sent, the draft and whether the form is open. */
  function AddTemplate(docs: Documents, d: Draft, adding: bool, id: int, now: int): (r: (Option<Documents>, Draft, bool))
    ensures r.0.Some? <==> DraftComplete(d)
    ensures DraftComplete(d) ==>
      r.0.value.coverLetterTemplates == docs.coverLetterTemplates + [CoverLetter(id, d.name, d.content, now)]
      && r.0.value.(coverLetterTemplates := docs.coverLetterTemplates) == docs
      && r.1 == EmptyDraft && !r.2
    ensures !DraftComplete(d) ==> r.1 == d && r.2 == adding
  {
    if Trim(d.name) != [] && Trim(d.content) != [] then
      (Some(docs.(coverLetterTemplates := docs.coverLetterTemplates + [CoverLetter(id, d.name, d.content, now)])), EmptyDraft, false)
    else (None, d, adding)
  }

  function ReplaceTemplate(t: CoverLetter): CoverLetter -> CoverLetter {
    (u: CoverLetter) => if u.id == t.id then t else u
  }

  /** `handleEditTemplate`: every template with the edited one's id is
      replaced by it; the order and the others stay. */
  function EditTemplate(docs: Documents, t: CoverLetter): (r: Documents)
    ensures |r.coverLetterTemplates| == |docs.coverLetterTemplates|
    ensures forall i | 0 <= i < |docs.coverLetterTemplates| ::
      r.coverLetterTemplates[i] == if docs.coverLetterTemplates[i].id == t.id then t else docs.coverLetterTemplates[i]
    ensures r.(coverLetterTemplates := docs.coverLetterTemplates) == docs
  {
    docs.(coverLetterTemplates := Map(docs.coverLetterTemplates, ReplaceTemplate(t)))
  }

  function TemplateIdIsNot(id: int): CoverLetter -> bool {
    (t: CoverLetter) => t.id != id
  }

  /** `handleDeleteTemplate`: every template with the id goes. */
  function DeleteTemplate(docs: Documents, id: int): (r: Documents)
    ensures forall t :: t in r.coverLetterTemplates <==> t in docs.coverLetterTemplates && t.id != id
    ensures IsSubseq(r.coverLetterTemplates, docs.coverLetterTemplates)
    ensures |r.coverLetterTemplates| == Count(docs.coverLetterTemplates, TemplateIdIsNot(id))
    ensures r.(coverLetterTemplates := docs.coverLetterTemplates) == docs
  {
    docs.(coverLetterTemplates := Filter(docs.coverLetterTemplates, TemplateIdIsNot(id)))
  }

  predicate FreshTemplateId(docs: Documents, id: int) {
    forall i | 0 <= i < |docs.coverLetterTemplates| :: docs.coverLetterTemplates[i].id != id
  }

  /** Adding a template under a new id and deleting that id gives the card
      back. */
  lemma AddThenDeleteTemplate(docs: Documents, d: Draft, id: int, now: int)
    requires DraftComplete(d) && FreshTemplateId(docs, id)
    ensures DeleteTemplate(AddTemplate(docs, d, true, id, now).0.value, id) == docs
  {
    var ts := docs.coverLetterTemplates;
    var t := CoverLetter(id, d.name, d.content, now);
    FilterAppend(ts, [t], TemplateIdIsNot(id));
    FilterAll(ts, TemplateIdIsNot(id));
    assert Filter([t], TemplateIdIsNot(id)) == [];
    assert ts + [t] == AddTemplate(docs, d, true, id, now).0.value.coverLetterTemplates;
  }

  /** Editing a template with an id nobody has changes nothing; saving an
      unchanged template changes nothing when ids are distinct. */
  lemma EditUnknownTemplate(docs: Documents, t: CoverLetter)
    requires FreshTemplateId(docs, t.id)
    ensures EditTemplate(docs, t) == docs
  {
    assert EditTemplate(docs, t).coverLetterTemplates == docs.coverLetterTemplates;
  }

  // ---------------------------------------------------------------------------
  // Portfolio links

  datatype LinkDraft = LinkDraft(title: String, url: String, description: String)

  const EmptyLinkDraft := LinkDraft("", "", "")

  /** `handleAddLink`: needs a title and a URL that are not blank; the
      description may be empty. */
  function AddLink(docs: Documents, d: LinkDraft, adding: bool, id: int, now: int): (r: (Option<Documents>, LinkDraft, bool))
    ensures r.0.Some? <==> !IsBlank(d.title) && !IsBlank(d.url)
    ensures r.0.Some? ==>
      r.0.value.portfolioLinks == docs.portfolioLinks + [PortfolioLink(id, d.title, d.url, d.description, now)]
      && r.0.value.(portfolioLinks := docs.portfolioLinks) == docs
      && r.1 == EmptyLinkDraft && !r.2
    ensures r.0.None? ==> r.1 == d && r.2 == adding
  {
    if Trim(d.title) != [] && Trim(d.url) != [] then
      (Some(docs.(portfolioLinks := docs.portfolioLinks + [PortfolioLink(id, d.title, d.url, d.description, now)])), EmptyLinkDraft, false)
    else (None, d, adding)
  }

  function LinkIdIsNot(id: int): PortfolioLink -> bool {
    (l: PortfolioLink) => l.id != id
  }

  function DeleteLink(docs: Documents, id: int): (r: Documents)
    ensures forall l :: l in r.portfolioLinks <==> l in docs.portfolioLinks && l.id != id
    ensures IsSubseq(r.portfolioLinks, docs.portfolioLinks)
    ensures |r.portfolioLinks| == Count(docs.portfolioLinks, LinkIdIsNot(id))
    ensures r.(portfolioLinks := docs.portfolioLinks) == docs
  {
    docs.(portfolioLinks := Filter(docs.portfolioLinks, LinkIdIsNot(id)))
  }

  /** Adding a link under a new id and deleting that id gives the card back. */
  lemma AddThenDeleteLink(docs: Documents, d: LinkDraft, id: int, now: int)
    requires !IsBlank(d.title) && !IsBlank(d.url)
    requires forall i | 0 <= i < |docs.portfolioLinks| :: docs.portfolioLinks[i].id != id
    ensures DeleteLink(AddLink(docs, d, true, id, now).0.value, id) == docs
  {
    var ls := docs.portfolioLinks;
    var l := PortfolioLink(id, d.title, d.url, d.description, now);
    FilterAppend(ls, [l], LinkIdIsNot(id));
    FilterAll(ls, LinkIdIsNot(id));
    assert Filter([l], LinkIdIsNot(id)) == [];
    assert ls + [l] == AddLink(docs, d, true, id, now).0.value.portfolioLinks;
  }
}
