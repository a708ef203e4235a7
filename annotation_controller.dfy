/** The backend annotation handlers (backend/src/controllers/annotationController.ts):
    the visibility resolver applied on every fetch, the creator-or-admin rule
    that gates update and delete, create validation with its defaults, and the
    field-by-field update. The database collection is the `records` field of
    `AnnotationStore`. */
module AnnotationController {
  import opened Wrappers
  import opened Annotations
  import Seqs

  /** The error replies of the handlers. Both kinds of 400 are kept apart so
      that the order of the checks is visible. */
  datatype HttpError = MissingFields | InvalidId | Forbidden | NotFound

  function Status(e: HttpError): nat
  {
    match e
    case MissingFields => 400
    case InvalidId => 400
    case Forbidden => 403
    case NotFound => 404
  }

  datatype Result<T> = Ok(value: T) | Fail(error: HttpError)

  /** The role a fetch is made for: the `X-User-Role` header, else `R1`. */
  function Viewer(header: Option<Role>): (r: Role)
    ensures header == Some(r) || (header.None? && r == R1)
  {
    header.GetOr(R1)
  }

  /** The role a write is made for: the `X-User-Role` header, else `D1`. */
  function Actor(header: Option<Role>): (r: Role)
    ensures header == Some(r) || (header.None? && r == D1)
  {
    header.GetOr(D1)
  }

  // ---------------------------------------------------------------------
  // Visibility resolver
  // ---------------------------------------------------------------------

  /** Whether `viewer` may see `a`; the first rule that applies decides. */
  predicate IsVisible(a: Annotation, viewer: Role)
    ensures IsVisible(a, viewer) ==> viewer != R1
    ensures IsVisible(a, viewer) && a.createdBy != viewer ==> !a.isPrivate
  {
    if viewer == R1 then false
    else if a.createdBy == viewer then true
    else if a.isPrivate then false
    else if viewer == A1 then true
    else viewer in a.visibility
  }

  function VisibleTo(viewer: Role): Annotation -> bool
  {
    (a: Annotation) => IsVisible(a, viewer)
  }

  /** The stored annotations `viewer` is sent, in stored order. */
  function VisibleAnnotations(all: seq<Annotation>, viewer: Role): (r: seq<Annotation>)
    ensures |r| <= |all|
    ensures forall i :: 0 <= i < |r| ==> IsVisible(r[i], viewer)
  {
    Seqs.Filter(VisibleTo(viewer), all)
  }

  /** The same rule stated without an evaluation order. */
  lemma VisibilityRule(a: Annotation, viewer: Role)
    ensures IsVisible(a, viewer) <==>
              viewer != R1 &&
              (viewer == a.createdBy || (!a.isPrivate && (viewer == A1 || viewer in a.visibility)))
  {
  }

  lemma ReaderSeesNone(a: Annotation)
    ensures !IsVisible(a, R1)
  {
  }

  lemma AuthorSeesOwn(a: Annotation)
    requires a.createdBy != R1
    ensures IsVisible(a, a.createdBy)
  {
  }

  lemma PrivateHiddenFromOthers(a: Annotation, viewer: Role)
    requires a.isPrivate && viewer != a.createdBy
    ensures !IsVisible(a, viewer)
  {
  }

  lemma AdminSeesShared(a: Annotation)
    requires !a.isPrivate
    ensures IsVisible(a, A1)
  {
  }

  lemma SharedGatedByList(a: Annotation, viewer: Role)
    requires !a.isPrivate && viewer != a.createdBy && viewer != A1 && viewer != R1
    ensures IsVisible(a, viewer) <==> viewer in a.visibility
  {
  }

  /** A reader's fetch is always empty. */
  lemma ReaderFetchesNothing(all: seq<Annotation>)
    ensures VisibleAnnotations(all, R1) == []
  {
    Seqs.FilterNone(VisibleTo(R1), all);
  }

  /** A fetch returns exactly the stored annotations the viewer may see. */
  lemma VisibleMember(all: seq<Annotation>, viewer: Role, a: Annotation)
    ensures a in VisibleAnnotations(all, viewer) <==> a in all && IsVisible(a, viewer)
  {
    Seqs.FilterMember(VisibleTo(viewer), all, a);
  }

  /** A fetch keeps the stored order. */
  lemma VisibleInOrder(all: seq<Annotation>, viewer: Role)
    ensures Seqs.Subsequence(VisibleAnnotations(all, viewer), all)
  {
    Seqs.FilterSubsequence(VisibleTo(viewer), all);
  }

  /** Whether one annotation is sent does not depend on the others. */
  lemma VisibleLocal(s: seq<Annotation>, t: seq<Annotation>, viewer: Role)
    ensures VisibleAnnotations(s + t, viewer) == VisibleAnnotations(s, viewer) + VisibleAnnotations(t, viewer)
  {
    Seqs.FilterConcat(VisibleTo(viewer), s, t);
  }

  /** D1's private highlight on page 2 is fetched by D1 only, not by D2 and
      not by the admin. */
  lemma PrivateHighlightScenario(h: Annotation)
    requires h.createdBy == D1 && h.isPrivate && h.data.Highlight? && h.data.pageNumber == 2
    ensures VisibleAnnotations([h], D2) == [] && VisibleAnnotations([h], A1) == []
    ensures VisibleAnnotations([h], D1) == [h]
  {
    Seqs.FilterSingleton(VisibleTo(D2), h);
    Seqs.FilterSingleton(VisibleTo(A1), h);
    Seqs.FilterSingleton(VisibleTo(D1), h);
  }

  /** D1's comment shared with D2 is fetched by D2 and by the admin, never
      by the reader. */
  lemma SharedCommentScenario(c: Annotation)
    requires c.createdBy == D1 && !c.isPrivate && c.visibility == [D2] && c.data.Comment?
    ensures VisibleAnnotations([c], D2) == [c] && VisibleAnnotations([c], A1) == [c]
    ensures VisibleAnnotations([c], R1) == []
  {
    Seqs.FilterSingleton(VisibleTo(D2), c);
    Seqs.FilterSingleton(VisibleTo(A1), c);
    Seqs.FilterSingleton(VisibleTo(R1), c);
  }

  // ---------------------------------------------------------------------
  // Mutation permission, shared by update and delete
  // ---------------------------------------------------------------------

  /** The creator or the admin may change or delete an annotation. */
  predicate MayMutate(a: Annotation, actor: Role)
    ensures MayMutate(a, actor) <==> actor == A1 || a.createdBy == actor
  {
    !(a.createdBy != actor && actor != A1)
  }

  /** The checks update and delete share, in their order: a malformed id,
      then a missing record, then the permission test. On success, the index
      of the record. */
  function Authorize(records: seq<Annotation>, id: string, actor: Role, validId: string -> bool): (r: Result<nat>)
    ensures r == Fail(InvalidId) <==> !validId(id)
    ensures r == Fail(NotFound) <==> validId(id) && forall i :: 0 <= i < |records| ==> records[i].id != id
    ensures r == Fail(Forbidden) <==>
              validId(id) &&
              exists i :: 0 <= i < |records| && records[i].id == id && !MayMutate(records[i], actor)
                          && forall j :: 0 <= j < i ==> records[j].id != id
    ensures r.Fail? ==> r.error != MissingFields
    ensures r.Ok? ==> r.value < |records| && records[r.value].id == id && MayMutate(records[r.value], actor)
  {
    if !validId(id) then Fail(InvalidId)
    else match FindIndex(records, id)
      case None => Fail(NotFound)
      case Some(i) => if !MayMutate(records[i], actor) then Fail(Forbidden) else Ok(i)
  }

  /** With distinct ids, the outcome is 403 exactly when the one record
      carrying `id` belongs to someone else and the actor is not the admin. */
  lemma ForbiddenIff(records: seq<Annotation>, i: nat, actor: Role, validId: string -> bool)
    requires UniqueIds(records) && i < |records| && validId(records[i].id)
    ensures Authorize(records, records[i].id, actor, validId) == Fail(Forbidden)
            <==> records[i].createdBy != actor && actor != A1
    ensures Authorize(records, records[i].id, actor, validId) != Fail(Forbidden)
            ==> Authorize(records, records[i].id, actor, validId) == Ok(i)
  {
  }

  // ---------------------------------------------------------------------
  // Create
  // ---------------------------------------------------------------------

  /** A create request body: every field may be absent. */
  datatype CreateRequest = CreateRequest(
    documentId: Option<string>,
    kind: Option<Kind>,
    data: Option<Payload>,
    isPrivate: Option<bool>,
    visibility: Option<seq<Role>>)

  /** `documentId`, `type` or `data` is absent (an empty string counts as absent). */
  predicate Incomplete(req: CreateRequest)
  {
    req.documentId.None? || req.documentId.value == "" || req.kind.None? || req.data.None?
  }

  /** The record a create request stores, or why it is refused. */
  function NewRecord(req: CreateRequest, createdBy: Role, validId: string -> bool, newId: string, now: string): (r: Result<Annotation>)
    ensures r == Fail(MissingFields) <==> Incomplete(req)
    ensures r == Fail(InvalidId) <==> !Incomplete(req) && !validId(req.documentId.value)
    ensures r.Fail? ==> Status(r.error) == 400
    ensures r.Ok? ==>
              && r.value.id == newId && r.value.createdBy == createdBy && r.value.createdAt == now
              && req.documentId == Some(r.value.documentId) && req.data == Some(r.value.data)
    ensures r.Ok? ==> (r.value.isPrivate <==> req.isPrivate != Some(false))
    ensures r.Ok? && req.visibility.None? ==> r.value.visibility == []
    ensures r.Ok? && req.visibility.Some? ==> r.value.visibility == req.visibility.value
  {
    if Incomplete(req) then Fail(MissingFields)
    else if !validId(req.documentId.value) then Fail(InvalidId)
    else Ok(Annotation(
      newId,
      req.documentId.value,
      createdBy,
      req.data.value,
      if req.isPrivate.Some? then req.isPrivate.value else true,
      if req.visibility.Some? then req.visibility.value else [],
      now))
  }

  // ---------------------------------------------------------------------
  // Update
  // ---------------------------------------------------------------------

  /** An update request body; absent fields are left as they are. */
  datatype Patch = Patch(data: Option<Payload>, isPrivate: Option<bool>, visibility: Option<seq<Role>>)

  /** The record after an update: supplied fields replaced, the rest kept. */
  function ApplyPatch(a: Annotation, patch: Patch): (r: Annotation)
    ensures r.id == a.id && r.documentId == a.documentId
    ensures r.createdBy == a.createdBy && r.createdAt == a.createdAt
    ensures patch.data.None? ==> r.data == a.data
    ensures patch.isPrivate.None? ==> r.isPrivate == a.isPrivate
    ensures patch.visibility.None? ==> r.visibility == a.visibility
    ensures patch.data.Some? ==> r.data == patch.data.value
    ensures patch.isPrivate.Some? ==> r.isPrivate == patch.isPrivate.value
    ensures patch.visibility.Some? ==> r.visibility == patch.visibility.value
  {
    a.(data := patch.data.GetOr(a.data),
       isPrivate := patch.isPrivate.GetOr(a.isPrivate),
       visibility := patch.visibility.GetOr(a.visibility))
  }

  /** Applying the same patch twice is the same as applying it once. */
  lemma PatchIdempotent(a: Annotation, patch: Patch)
    ensures ApplyPatch(ApplyPatch(a, patch), patch) == ApplyPatch(a, patch)
  {
  }

  /** An empty patch leaves the record as it was. */
  lemma EmptyPatchIdentity(a: Annotation)
    ensures ApplyPatch(a, Patch(None, None, None)) == a
  {
  }

  // ---------------------------------------------------------------------
  // The collection and the four handlers
  // ---------------------------------------------------------------------

  /** The annotations collection of the database. */
  class AnnotationStore {
    var records: seq<Annotation>

    ghost predicate Valid()
      reads this
    {
      UniqueIds(records)
    }

    constructor ()
      ensures Valid() && records == []
    {
      records := [];
    }

    /** POST: validate, default, store. `newId` and `now` are the id and the
        timestamp the database assigns. */
    method CreateAnnotation(req: CreateRequest, header: Option<Role>, validId: string -> bool, newId: string, now: string)
      returns (r: Result<Annotation>)
      requires Valid()
      requires forall k :: 0 <= k < |records| ==> records[k].id != newId
      modifies this
      ensures Valid()
      ensures r == NewRecord(req, Actor(header), validId, newId, now)
      ensures r.Fail? ==> records == old(records)
      ensures r.Ok? ==> records == old(records) + [r.value]
    {
      r := NewRecord(req, Actor(header), validId, newId, now);
      if r.Ok? {
        records := records + [r.value];
      }
    }

    /** GET by document: the document's records the viewer may see, in
        stored order. */
    method GetAnnotationsByDocument(documentId: string, header: Option<Role>, validId: string -> bool)
      returns (r: Result<seq<Annotation>>)
      requires Valid()
      ensures r.Fail? <==> !validId(documentId)
      ensures r.Fail? ==> r.error == InvalidId
      ensures r.Ok? ==> forall a :: a in r.value <==>
                          a in records && a.documentId == documentId && IsVisible(a, Viewer(header))
      ensures r.Ok? ==> Seqs.Subsequence(r.value, records)
      ensures r.Ok? && header.None? ==> r.value == []
    {
      if !validId(documentId) {
        return Fail(InvalidId);
      }
      var all := Seqs.Filter(OnDocument(documentId), records);
      var visible := VisibleAnnotations(all, Viewer(header));
      forall a ensures a in visible <==> a in records && a.documentId == documentId && IsVisible(a, Viewer(header)) {
        VisibleMember(all, Viewer(header), a);
        Seqs.FilterMember(OnDocument(documentId), records, a);
      }
      VisibleInOrder(all, Viewer(header));
      Seqs.FilterSubsequence(OnDocument(documentId), records);
      Seqs.SubsequenceTrans(visible, all, records);
      if header.None? {
        ReaderFetchesNothing(all);
      }
      r := Ok(visible);
    }

    /** PUT: the shared checks, then the supplied fields one by one. */
    method UpdateAnnotation(id: string, patch: Patch, header: Option<Role>, validId: string -> bool)
      returns (r: Result<Annotation>)
      requires Valid()
      modifies this
      ensures Valid()
      ensures match Authorize(old(records), id, Actor(header), validId)
        case Fail(e) => r == Fail(e) && records == old(records)
        case Ok(i) => r == Ok(ApplyPatch(old(records)[i], patch)) && records == old(records)[i := r.value]
    {
      var auth := Authorize(records, id, Actor(header), validId);
      if auth.Fail? {
        return Fail(auth.error);
      }
      var i := auth.value;
      var a := records[i];
      if patch.data.Some? { a := a.(data := patch.data.value); }
      if patch.isPrivate.Some? { a := a.(isPrivate := patch.isPrivate.value); }
      if patch.visibility.Some? { a := a.(visibility := patch.visibility.value); }
      records := records[i := a];
      r := Ok(a);
      assert forall k :: 0 <= k < |records| ==> records[k].id == old(records)[k].id;
    }

    /** DELETE: the shared checks, then the record is removed. */
    method DeleteAnnotation(id: string, header: Option<Role>, validId: string -> bool)
      returns (r: Result<string>)
      requires Valid()
      modifies this
      ensures Valid()
      ensures match Authorize(old(records), id, Actor(header), validId)
        case Fail(e) => r == Fail(e) && records == old(records)
        case Ok(i) => r == Ok(id) && records == Seqs.Filter(OtherId(id), old(records))
    {
      var auth := Authorize(records, id, Actor(header), validId);
      if auth.Fail? {
        return Fail(auth.error);
      }
      var i := auth.value;
      RemoveAtIsFilter(records, i);
      RemoveAtUnique(records, i);
      records := records[..i] + records[i + 1..];
      r := Ok(id);
    }
  }

  /** Filtering predicate: the record belongs to `documentId`. */
  function OnDocument(documentId: string): Annotation -> bool
  {
    (a: Annotation) => a.documentId == documentId
  }
}
