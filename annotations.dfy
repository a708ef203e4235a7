/** The shared data model of the annotator: roles, page-local geometry and
    the annotation record (frontend/src/types/index.ts). */
module Annotations {
  import opened Wrappers
  import Seqs

  /** The four roles: one admin, two annotators, one read-only role. */
  datatype Role = A1 | D1 | D2 | R1

  /** Page-local pixel coordinates, as integers. */
  datatype Point = Point(x: int, y: int)

  datatype Rect = Rect(x: int, y: int, width: int, height: int)

  /** One freehand stroke. */
  datatype Path = Path(points: seq<Point>, color: string, width: int)

  /** The annotation types that can be stored. */
  datatype Kind = HighlightKind | CommentKind | DrawKind

  /** The type-specific payload; the annotation's type is its constructor. */
  datatype Payload =
    | Highlight(pageNumber: int, text: string, color: string, rects: seq<Rect>)
    | Comment(pageNumber: int, x: int, y: int, text: string, color: string)
    | Draw(pageNumber: int, paths: seq<Path>)

  datatype Annotation = Annotation(
    id: string,
    documentId: string,
    createdBy: Role,
    data: Payload,
    isPrivate: bool,
    visibility: seq<Role>,
    createdAt: string)

  /** A partially filled annotation as handed from a gesture to the page
      (TypeScript `Partial<Annotation>`): type and payload may be absent. */
  datatype Draft = Draft(kind: Option<Kind>, data: Option<Payload>)

  /** The index of the first record carrying `id`, the lookup shared by the
      backend's `findById` and the page's `annotations.find`. */
  function FindIndex(s: seq<Annotation>, id: string): (r: Option<nat>)
    ensures r.None? <==> forall i :: 0 <= i < |s| ==> s[i].id != id
    ensures r.Some? ==> r.value < |s| && s[r.value].id == id
                        && forall j :: 0 <= j < r.value ==> s[j].id != id
    decreases |s|
  {
    if s == [] then None
    else if s[0].id == id then Some(0)
    else match FindIndex(s[1..], id)
      case None => None
      case Some(k) => Some(k + 1)
  }

  /** Ids are pairwise distinct, as the database's primary key keeps them. */
  ghost predicate UniqueIds(s: seq<Annotation>)
  {
    forall i, j :: 0 <= i < j < |s| ==> s[i].id != s[j].id
  }

  /** Filtering predicate: the record does not carry `id`. */
  function OtherId(id: string): Annotation -> bool
  {
    (a: Annotation) => a.id != id
  }

  /** With distinct ids, cutting out the record at `i` is the same as
      dropping every record that carries its id. */
  lemma {:induction false} RemoveAtIsFilter(s: seq<Annotation>, i: nat)
    requires UniqueIds(s) && i < |s|
    ensures s[..i] + s[i + 1..] == Seqs.Filter(OtherId(s[i].id), s)
  {
    var p := OtherId(s[i].id);
    var pre, post := s[..i], s[i + 1..];
    forall k | 0 <= k < |pre| ensures p(pre[k]) {
      assert pre[k] == s[k] && s[k].id != s[i].id;
    }
    forall k | 0 <= k < |post| ensures p(post[k]) {
      assert post[k] == s[i + 1 + k] && s[i + 1 + k].id != s[i].id;
    }
    assert !p(s[i]);
    assert s == pre + [s[i]] + post;
    Seqs.FilterDropsMiddle(p, pre, s[i], post);
  }

  /** Cutting out one record keeps the ids distinct. */
  lemma RemoveAtUnique(s: seq<Annotation>, i: nat)
    requires UniqueIds(s) && i < |s|
    ensures UniqueIds(s[..i] + s[i + 1..])
  {
    var t := s[..i] + s[i + 1..];
    forall a, b | 0 <= a < b < |t| ensures t[a].id != t[b].id {
      var a' := if a < i then a else a + 1;
      var b' := if b < i then b else b + 1;
      assert t[a] == s[a'] && t[b] == s[b'];
    }
  }
}
