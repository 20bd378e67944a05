/**
 * The document table of the admin page (`src/components/Admin/Admin.jsx`): an in-memory
 * list of uploaded documents with save, delete, edit and a search/category filter.
 *
 * The page's state hooks are the fields of `AdminPage`. The clock (`Date.now()` for the
 * new id, `toLocaleString` for the upload date) is a parameter, and each toast the page
 * raises is appended to `notices`.
 */
module Admin {
  import opened Wrappers
  import opened Text
  import opened Seqs

  datatype Document = Document(id: int, title: string, category: string, fileName: string, uploadDate: string)

  /** The file chosen in the file input; only its name is read. */
  datatype FileRef = FileRef(name: string)

  datatype Notice = Success(text: string) | Failure(text: string) | Info(text: string)

  const UploadedText := "File uploaded successfully!"
  const MissingFieldsText := "Please fill in all required fields!"
  const DeletedText := "Document deleted!"
  const UpdatedText := "Document updated successfully!"

  /** The three sample documents the page starts with. */
  const InitialDocuments: seq<Document> := [
    Document(1, "Employee Handbook.pdf", "Onboarding", "employee_handbook.pdf", "5/25/2025, 10:30 AM"),
    Document(2, "Q1 Financial Report.docx", "Prepared", "q1_financial_report.docx", "5/20/2025, 2:15 PM"),
    Document(3, "Meeting Notes.txt", "Training", "meeting_notes.txt", "5/15/2025, 9:45 AM")
  ]

  /** `documents.filter((doc) => doc.id !== id)`. */
  function WithoutId(docs: seq<Document>, id: int): (r: seq<Document>)
    ensures forall d :: d in r <==> d in docs && d.id != id
    ensures forall d :: multiset(r)[d] == if d.id != id then multiset(docs)[d] else 0
    ensures IsSubsequence(r, docs)
  {
    var keep := (d: Document) => d.id != id;
    FilterIsSubsequence(docs, keep);
    Filter(docs, keep)
  }

  /** Deleting an id no document has leaves the list as it was. */
  lemma DeleteAbsentId(docs: seq<Document>, id: int)
    requires forall d :: d in docs ==> d.id != id
    ensures WithoutId(docs, id) == docs
  {
    FilterAll(docs, (d: Document) => d.id != id);
  }

  /** `documents.map(...)` of `handleSaveEdit`: documents with the id get the new title and category. */
  function WithEdit(docs: seq<Document>, id: int, title: string, category: string): (r: seq<Document>)
    ensures |r| == |docs|
    ensures forall i :: 0 <= i < |docs| ==>
      && r[i].id == docs[i].id && r[i].fileName == docs[i].fileName && r[i].uploadDate == docs[i].uploadDate
      && (docs[i].id == id ==> r[i].title == title && r[i].category == category)
      && (docs[i].id != id ==> r[i] == docs[i])
  {
    seq(|docs|, i requires 0 <= i < |docs| =>
      if docs[i].id == id then docs[i].(title := title, category := category) else docs[i])
  }

  /** Editing a document and then editing it back restores the list. */
  lemma EditUndo(docs: seq<Document>, i: nat, title: string, category: string)
    requires i < |docs| && forall j :: 0 <= j < |docs| && docs[j].id == docs[i].id ==> j == i
    ensures WithEdit(WithEdit(docs, docs[i].id, title, category), docs[i].id, docs[i].title, docs[i].category) == docs
  {
    var edited := WithEdit(docs, docs[i].id, title, category);
    var back := WithEdit(edited, docs[i].id, docs[i].title, docs[i].category);
    assert forall j :: 0 <= j < |docs| ==> back[j] == docs[j];
  }

  /** The title search: the lower-cased title contains the lower-cased query. */
  predicate MatchesQuery(d: Document, query: string) {
    Includes(ToLower(d.title), ToLower(query))
  }

  /** The category filter: no filter chosen, or the category is the chosen one. */
  predicate MatchesFilter(d: Document, filter: string) {
    filter == "" || d.category == filter
  }

  /** `filteredDocuments`: the title search, then the category filter. */
  function Filtered(docs: seq<Document>, query: string, filter: string): (r: seq<Document>)
    ensures forall d :: d in r <==> d in docs && MatchesQuery(d, query) && MatchesFilter(d, filter)
    ensures forall d :: multiset(r)[d] == if MatchesQuery(d, query) && MatchesFilter(d, filter) then multiset(docs)[d] else 0
    ensures IsSubsequence(r, docs)
  {
    var byTitle := (d: Document) => MatchesQuery(d, query);
    var byCategory := (d: Document) => MatchesFilter(d, filter);
    var both := (d: Document) => MatchesQuery(d, query) && MatchesFilter(d, filter);
    FilterTwice(docs, byTitle, byCategory, both);
    FilterIsSubsequence(docs, both);
    Filter(Filter(docs, byTitle), byCategory)
  }

  /** With no query and no category chosen, every document is listed, in order. */
  lemma FilteredShowsAll(docs: seq<Document>)
    ensures Filtered(docs, "", "") == docs
  {
    var byTitle := (d: Document) => MatchesQuery(d, "");
    var byCategory := (d: Document) => MatchesFilter(d, "");
    forall d | d in docs
      ensures byTitle(d)
    {
      IncludesEmpty(ToLower(d.title));
    }
    FilterAll(docs, byTitle);
    FilterAll(docs, byCategory);
  }

  class AdminPage {
    var file: Option<FileRef>
    var docTitle: string
    var category: string
    var isUploaded: bool
    var searchQuery: string
    var filter: string
    var editingDocId: Option<int>
    var editTitle: string
    var editCategory: string
    var documents: seq<Document>
    var notices: seq<Notice>

    /** The page as first shown: the sample documents, empty form, no edit in progress. */
    constructor ()
      ensures documents == InitialDocuments && notices == []
      ensures file == None && docTitle == "" && category == "" && !isUploaded
      ensures searchQuery == "" && filter == "" && editingDocId == None && editTitle == "" && editCategory == ""
    {
      file, docTitle, category, isUploaded := None, "", "", false;
      searchQuery, filter := "", "";
      editingDocId, editTitle, editCategory := None, "", "";
      documents, notices := InitialDocuments, [];
    }

    /** `handleSearch`: the search box's text becomes the query. */
    method HandleSearch(query: string)
      modifies this`searchQuery
      ensures searchQuery == query
      ensures FilteredDocuments() == Filtered(documents, query, filter)
    {
      searchQuery := query;
    }

    /** `handleFilter`: the chosen category becomes the filter ("" shows every category). */
    method HandleFilter(chosen: string)
      modifies this`filter
      ensures filter == chosen
      ensures FilteredDocuments() == Filtered(documents, searchQuery, chosen)
    {
      filter := chosen;
    }

    /** The documents the table shows. */
    function FilteredDocuments(): (r: seq<Document>)
      reads this`documents, this`searchQuery, this`filter
      ensures IsSubsequence(r, documents)
      ensures forall d :: d in r <==> d in documents && MatchesQuery(d, searchQuery) && MatchesFilter(d, filter)
      ensures forall d ::
        multiset(r)[d] == if MatchesQuery(d, searchQuery) && MatchesFilter(d, filter) then multiset(documents)[d] else 0
    {
      Filtered(documents, searchQuery, filter)
    }

    /** `handleFileChange`: a chosen file becomes the pending upload and names the title. */
    method HandleFileChange(selected: Option<FileRef>)
      modifies this`file, this`docTitle, this`isUploaded
      ensures selected.None? ==> unchanged(this)
      ensures selected.Some? ==> file == selected && docTitle == selected.value.name && !isUploaded
    {
      if selected.Some? {
        file := selected;
        docTitle := selected.value.name;
        isUploaded := false;
      }
    }

    /** `handleDeleteFile`: the pending upload and its title are dropped. */
    method HandleDeleteFile()
      modifies this`file, this`docTitle
      ensures file == None && docTitle == ""
    {
      file := None;
      docTitle := "";
    }

    /**
     * `handleSave`: with a file, a title and a category, exactly one document is
     * appended and the form is cleared; otherwise the list is unchanged and an error
     * toast is raised.
     */
    method HandleSave(newId: int, uploadDate: string)
      modifies this`documents, this`isUploaded, this`file, this`docTitle, this`category, this`notices
      ensures old(file.Some? && docTitle != "" && category != "") ==>
        && documents == old(documents) + [Document(newId, old(docTitle), old(category), old(file.value.name), uploadDate)]
        && isUploaded && file == None && docTitle == "" && category == ""
        && notices == old(notices) + [Success(UploadedText)]
      ensures !old(file.Some? && docTitle != "" && category != "") ==>
        && documents == old(documents) && isUploaded == old(isUploaded)
        && file == old(file) && docTitle == old(docTitle) && category == old(category)
        && notices == old(notices) + [Failure(MissingFieldsText)]
    {
      if file.Some? && docTitle != "" && category != "" {
        documents := documents + [Document(newId, docTitle, category, file.value.name, uploadDate)];
        isUploaded := true;
        notices := notices + [Success(UploadedText)];
        file := None;
        docTitle := "";
        category := "";
      } else {
        notices := notices + [Failure(MissingFieldsText)];
      }
    }

    /** `handleDeleteDocument`: every document with the id is removed, the others keep their order. */
    method HandleDeleteDocument(id: int)
      modifies this`documents, this`notices
      ensures documents == WithoutId(old(documents), id)
      ensures notices == old(notices) + [Info(DeletedText)]
    {
      documents := WithoutId(documents, id);
      notices := notices + [Info(DeletedText)];
    }

    /** `handleEditDocument`: the document's title and category are copied into the edit fields. */
    method HandleEditDocument(doc: Document)
      modifies this`editingDocId, this`editTitle, this`editCategory
      ensures editingDocId == Some(doc.id) && editTitle == doc.title && editCategory == doc.category
    {
      editingDocId := Some(doc.id);
      editTitle := doc.title;
      editCategory := doc.category;
    }

    /**
     * `handleSaveEdit`: the documents with the id take the edited title and category,
     * and editing ends; the edit fields keep their text.
     */
    method HandleSaveEdit(id: int)
      modifies this`documents, this`editingDocId, this`notices
      ensures documents == WithEdit(old(documents), id, editTitle, editCategory)
      ensures editingDocId == None
      ensures notices == old(notices) + [Success(UpdatedText)]
    {
      documents := WithEdit(documents, id, editTitle, editCategory);
      editingDocId := None;
      notices := notices + [Success(UpdatedText)];
    }

    /** `handleCancelEdit`: editing ends and both edit fields are emptied. */
    method HandleCancelEdit()
      modifies this`editingDocId, this`editTitle, this`editCategory
      ensures editingDocId == None && editTitle == "" && editCategory == ""
    {
      editingDocId := None;
      editTitle := "";
      editCategory := "";
    }
  }
}
