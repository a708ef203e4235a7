/** The viewer page (frontend/src/pages/PdfViewer/PdfViewerPage.tsx): it holds
    the annotation list shown over the document and changes it optimistically,
    before the server answers, then reconciles or rolls back. Server calls are
    split into the step that starts them and the steps that handle their
    outcome, so other updates may come in between. */
module PdfViewerPage {
  import opened Wrappers
  import opened Annotations
  import Seqs
  import AnnotationLayer

  /** Roles that get annotation tools: everyone but the reader. */
  function CanAnnotate(currentUser: Role): (b: bool)
    ensures b <==> currentUser != R1
  {
    currentUser == A1 || currentUser == D1 || currentUser == D2
  }

  /** `prev.map(ann => ann._id === id ? replacement : ann)`. */
  function ReplaceById(s: seq<Annotation>, id: string, replacement: Annotation): (t: seq<Annotation>)
    ensures |t| == |s|
    ensures forall k :: 0 <= k < |s| ==> t[k] == if s[k].id == id then replacement else s[k]
    decreases |s|
  {
    if s == [] then []
    else [if s[0].id == id then replacement else s[0]] + ReplaceById(s[1..], id, replacement)
  }

  /** `prev.filter(ann => ann._id !== id)`. */
  function RemoveId(s: seq<Annotation>, id: string): (r: seq<Annotation>)
    ensures |r| <= |s|
    ensures forall k :: 0 <= k < |r| ==> r[k].id != id
  {
    Seqs.Filter(OtherId(id), s)
  }

  /** `annotations.find(ann => ann._id === id)`. */
  function Find(s: seq<Annotation>, id: string): (r: Option<Annotation>)
    ensures r.None? <==> forall k :: 0 <= k < |s| ==> s[k].id != id
    ensures r.Some? ==> r.value in s && r.value.id == id
    ensures r.Some? ==> exists i :: 0 <= i < |s| && s[i] == r.value && forall j :: 0 <= j < i ==> s[j].id != id
  {
    match FindIndex(s, id)
    case None => None
    case Some(i) => Some(s[i])
  }

  ghost predicate FreshId(s: seq<Annotation>, id: string)
  {
    forall k :: 0 <= k < |s| ==> s[k].id != id
  }

  /** A confirmed create puts the server's record where the temporary one
      was: same length, every other element unchanged. */
  lemma {:induction false} CommitReplacesInPlace(s: seq<Annotation>, temp: Annotation, server: Annotation)
    requires FreshId(s, temp.id)
    ensures ReplaceById(s + [temp], temp.id, server) == s + [server]
  {
    var t := ReplaceById(s + [temp], temp.id, server);
    assert |t| == |s + [server]|;
    forall k | 0 <= k < |t| ensures t[k] == (s + [server])[k] {
      if k < |s| {
        assert (s + [temp])[k] == s[k];
      }
    }
  }

  /** A failed create takes the list back to what it was before, provided the
      temporary id was not already in use. */
  lemma RollbackRestores(s: seq<Annotation>, temp: Annotation)
    requires FreshId(s, temp.id)
    ensures RemoveId(s + [temp], temp.id) == s
  {
    Seqs.FilterConcat(OtherId(temp.id), s, [temp]);
    Seqs.FilterAll(OtherId(temp.id), s);
    Seqs.FilterSingleton(OtherId(temp.id), temp);
  }

  /** Deleting removes every record carrying the id and keeps all others. */
  lemma DeleteRemovesId(s: seq<Annotation>, id: string, a: Annotation)
    ensures a in RemoveId(s, id) <==> a in s && a.id != id
  {
    Seqs.FilterMember(OtherId(id), s, a);
  }

  /** Deleting an id that is not in the list changes nothing. */
  lemma DeleteAbsentIsNoOp(s: seq<Annotation>, id: string)
    requires Find(s, id).None?
    ensures RemoveId(s, id) == s
  {
    Seqs.FilterAll(OtherId(id), s);
  }

  /** A failed delete re-appends the captured record: with distinct ids the
      multiset of records is restored. */
  lemma RestoreKeepsMultiset(s: seq<Annotation>, id: string)
    requires UniqueIds(s) && Find(s, id).Some?
    ensures multiset(RemoveId(s, id) + [Find(s, id).value]) == multiset(s)
  {
    var i := FindIndex(s, id).value;
    RemoveAtIsFilter(s, i);
    Seqs.RemoveAtMultiset(s, i);
  }

  /** ...but not the order: the record comes back at the end. */
  lemma RestoreMayReorder(a: Annotation, b: Annotation)
    requires a.id != b.id
    ensures RemoveId([a, b], a.id) + [a] == [b, a]
    ensures [b, a] != [a, b]
  {
    var keep := OtherId(a.id);
    assert !keep(a) && keep(b);
    assert [a, b] == [a] + [b];
    Seqs.FilterConcat(keep, [a], [b]);
    Seqs.FilterSingleton(keep, a);
    Seqs.FilterSingleton(keep, b);
    assert RemoveId([a, b], a.id) == [b];
    assert [b, a][0] != [a, b][0];
  }

  /** The page's state. */
  class ViewerPage {
    const fileId: Option<string>
    var currentUser: Role
    var pageNumber: int
    var annotations: seq<Annotation>
    var currentTool: Option<AnnotationLayer.Tool>
    var isPrivate: bool
    var visibility: seq<Role>

    constructor (fileId: Option<string>, currentUser: Role)
      ensures this.fileId == fileId && this.currentUser == currentUser
      ensures pageNumber == 1 && annotations == [] && currentTool == None
      ensures isPrivate && visibility == []
    {
      this.fileId := fileId;
      this.currentUser := currentUser;
      pageNumber := 1;
      annotations := [];
      currentTool := None;
      isPrivate := true;
      visibility := [];
    }

    /** A new role is chosen: new annotations start out private again. */
    method UserChanged(user: Role)
      modifies this
      ensures currentUser == user && isPrivate && visibility == []
      ensures annotations == old(annotations) && pageNumber == old(pageNumber) && currentTool == old(currentTool)
    {
      currentUser := user;
      isPrivate := true;
      visibility := [];
    }

    /** The fetch for the document answered: the list is replaced wholesale. */
    method AnnotationsFetched(fetched: seq<Annotation>)
      modifies this`annotations
      ensures annotations == fetched
    {
      annotations := fetched;
    }

    /** `changePage`: move by `offset` pages; the Previous and Next buttons
        keep it within the document. */
    method ChangePage(offset: int)
      modifies this`pageNumber
      ensures pageNumber == old(pageNumber) + offset
    {
      pageNumber := pageNumber + offset;
    }

    /** `handleVisibilityChange`: the selector reports the sharing mode. */
    method HandleVisibilityChange(newIsPrivate: bool, newVisibility: seq<Role>)
      modifies this`isPrivate, this`visibility
      ensures isPrivate == newIsPrivate && visibility == newVisibility
    {
      isPrivate := newIsPrivate;
      visibility := newVisibility;
    }

    /** `handleAnnotationCreate`, up to the server call: nothing happens
        without a document, a type or a payload; otherwise a record with the
        temporary id, the current role and the current sharing settings is
        appended and the tool is put down. The record is returned so that the
        caller can send it. */
    method HandleAnnotationCreate(draft: Draft, tempId: string, now: string)
      returns (optimistic: Option<Annotation>)
      modifies this`annotations, this`currentTool
      ensures optimistic.None? <==> fileId.None? || draft.kind.None? || draft.data.None?
      ensures optimistic.None? ==> annotations == old(annotations) && currentTool == old(currentTool)
      ensures optimistic.Some? ==>
                && optimistic.value == Annotation(tempId, fileId.value, currentUser, draft.data.value,
                                                  isPrivate, visibility, now)
                && annotations == old(annotations) + [optimistic.value]
                && currentTool == None
    {
      if fileId.None? || draft.kind.None? || draft.data.None? {
        return None;
      }
      var record := Annotation(tempId, fileId.value, currentUser, draft.data.value, isPrivate, visibility, now);
      annotations := annotations + [record];
      currentTool := None;
      optimistic := Some(record);
    }

    /** The server stored the annotation: its record takes the temporary one's place. */
    method CreateSucceeded(tempId: string, server: Annotation)
      modifies this`annotations
      ensures annotations == ReplaceById(old(annotations), tempId, server)
    {
      annotations := ReplaceById(annotations, tempId, server);
    }

    /** The server refused or failed: the temporary record goes. */
    method CreateFailed(tempId: string)
      modifies this`annotations
      ensures annotations == RemoveId(old(annotations), tempId)
    {
      annotations := RemoveId(annotations, tempId);
    }

    /** `handleAnnotationDelete`, up to the server call: an id not in the
        list is ignored; otherwise its record is captured and every record
        with that id is removed. */
    method HandleAnnotationDelete(id: string) returns (captured: Option<Annotation>)
      modifies this`annotations
      ensures captured == Find(old(annotations), id)
      ensures captured.None? ==> annotations == old(annotations)
      ensures captured.Some? ==> annotations == RemoveId(old(annotations), id)
    {
      captured := Find(annotations, id);
      if captured.None? {
        return;
      }
      annotations := RemoveId(annotations, id);
    }

    /** The server refused or failed the delete: the captured record is put back at the end. */
    method DeleteFailed(captured: Annotation)
      modifies this`annotations
      ensures annotations == old(annotations) + [captured]
    {
      annotations := annotations + [captured];
    }
  }

  /** With no other update in between, an optimistic create followed by a
      failure leaves the list as it was, and one followed by success leaves
      the server's record in the temporary one's place. */
  method CreateRoundTrip(page: ViewerPage, draft: Draft, tempId: string, now: string,
                         server: Annotation, succeeds: bool)
    requires FreshId(page.annotations, tempId)
    requires page.fileId.Some? && draft.kind.Some? && draft.data.Some?
    modifies page
    ensures succeeds ==> page.annotations == old(page.annotations) + [server]
    ensures !succeeds ==> page.annotations == old(page.annotations)
  {
    var before := page.annotations;
    var optimistic := page.HandleAnnotationCreate(draft, tempId, now);
    if succeeds {
      page.CreateSucceeded(tempId, server);
      CommitReplacesInPlace(before, optimistic.value, server);
    } else {
      page.CreateFailed(tempId);
      RollbackRestores(before, optimistic.value);
    }
  }

  /** With distinct ids, an optimistic delete followed by a failure restores
      the multiset of records. */
  method DeleteRoundTrip(page: ViewerPage, id: string)
    requires UniqueIds(page.annotations)
    modifies page
    ensures multiset(page.annotations) == multiset(old(page.annotations))
  {
    var before := page.annotations;
    var captured := page.HandleAnnotationDelete(id);
    if captured.Some? {
      page.DeleteFailed(captured.value);
      RestoreKeepsMultiset(before, id);
    }
  }
}
