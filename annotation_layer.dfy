/** The drawing surface over one PDF page
    (frontend/src/components/AnnotationLayer/AnnotationLayer.tsx): which
    annotations belong to the page, which of them the user may delete, the
    eraser's hit-test, and the pointer gesture that records a freehand stroke. */
module AnnotationLayer {
  import opened Wrappers
  import opened Annotations
  import Seqs
  import AnnotationController

  /** The toolbar's tools; the eraser is a tool but never a stored type. */
  datatype Tool = HighlightTool | CommentTool | DrawTool | EraserTool

  // ---------------------------------------------------------------------
  // The current page and the delete permission
  // ---------------------------------------------------------------------

  function OnPage(page: int): Annotation -> bool
  {
    (a: Annotation) => a.data.pageNumber == page
  }

  /** The annotations drawn on page `page`, in list order. */
  function PageAnnotations(annotations: seq<Annotation>, page: int): (r: seq<Annotation>)
    ensures |r| <= |annotations|
    ensures forall i :: 0 <= i < |r| ==> r[i].data.pageNumber == page
  {
    Seqs.Filter(OnPage(page), annotations)
  }

  lemma PageMember(annotations: seq<Annotation>, page: int, a: Annotation)
    ensures a in PageAnnotations(annotations, page) <==> a in annotations && a.data.pageNumber == page
  {
    Seqs.FilterMember(OnPage(page), annotations, a);
  }

  lemma PageInOrder(annotations: seq<Annotation>, page: int)
    ensures Seqs.Subsequence(PageAnnotations(annotations, page), annotations)
  {
    Seqs.FilterSubsequence(OnPage(page), annotations);
  }

  /** The admin may delete anything, anyone else only their own: the page
      offers deletion exactly where the server permits it. */
  predicate CanDelete(currentUser: Role, a: Annotation)
    ensures CanDelete(currentUser, a) <==> AnnotationController.MayMutate(a, currentUser)
  {
    currentUser == A1 || a.createdBy == currentUser
  }

  // ---------------------------------------------------------------------
  // Hit-testing
  // ---------------------------------------------------------------------

  /** The eraser's reach around a drawn vertex, in pixels. */
  const EraserRadius: int := 10

  /** Rectangle containment with inclusive bounds: edges count. */
  predicate InRect(r: Rect, p: Point)
    ensures InRect(r, p) ==> r.width >= 0 && r.height >= 0
  {
    r.x <= p.x <= r.x + r.width && r.y <= p.y <= r.y + r.height
  }

  /** `p` lies within the eraser radius of vertex `v` (squared distances
      compared, which for `<=` is the same as comparing distances). */
  predicate NearVertex(v: Point, p: Point)
    ensures NearVertex(v, p) ==> -EraserRadius <= p.x - v.x <= EraserRadius
    ensures NearVertex(v, p) ==> -EraserRadius <= p.y - v.y <= EraserRadius
  {
    SquareBound(p.x - v.x, p.y - v.y);
    SquareBound(p.y - v.y, p.x - v.x);
    (p.x - v.x) * (p.x - v.x) + (p.y - v.y) * (p.y - v.y) <= EraserRadius * EraserRadius
  }

  /** A coordinate whose square, plus another square, is at most 10 * 10 lies
      within 10 of zero. */
  lemma SquareBound(d: int, e: int)
    ensures d * d + e * e <= EraserRadius * EraserRadius ==> -EraserRadius <= d <= EraserRadius
  {
    if d > EraserRadius {
      assert d * d > EraserRadius * d;
    } else if d < -EraserRadius {
      assert d * d > -EraserRadius * d;
    }
  }

  ghost predicate HitsRects(rects: seq<Rect>, p: Point)
  {
    exists i :: 0 <= i < |rects| && InRect(rects[i], p)
  }

  /** Only vertices are tested, not the segments between them. */
  ghost predicate HitsPaths(paths: seq<Path>, p: Point)
  {
    exists i, j :: 0 <= i < |paths| && 0 <= j < |paths[i].points| && NearVertex(paths[i].points[j], p)
  }

  /** Whether an eraser click at `p` lands on `a`; comments are never hit. */
  ghost predicate IsHit(a: Annotation, p: Point)
    ensures IsHit(a, p) ==> !a.data.Comment?
  {
    match a.data
    case Highlight(_, _, _, rects) => HitsRects(rects, p)
    case Draw(_, paths) => HitsPaths(paths, p)
    case Comment(_, _, _, _, _) => false
  }

  ghost predicate Erasable(currentUser: Role, a: Annotation, p: Point)
  {
    CanDelete(currentUser, a) && IsHit(a, p)
  }

  /** The id erased by a click at `p`: that of the first annotation in page
      order that the user may delete and that is hit. */
  ghost function EraseTarget(pageAnns: seq<Annotation>, currentUser: Role, p: Point): (r: Option<string>)
    ensures r.None? <==> forall k :: 0 <= k < |pageAnns| ==> !Erasable(currentUser, pageAnns[k], p)
    ensures r.Some? ==>
              exists k :: 0 <= k < |pageAnns| && pageAnns[k].id == r.value && Erasable(currentUser, pageAnns[k], p)
                          && forall j :: 0 <= j < k ==> !Erasable(currentUser, pageAnns[j], p)
    decreases |pageAnns|
  {
    if pageAnns == [] then None
    else if Erasable(currentUser, pageAnns[0], p) then Some(pageAnns[0].id)
    else
      var r := EraseTarget(pageAnns[1..], currentUser, p);
      assert forall k :: 1 <= k < |pageAnns| ==> pageAnns[k] == pageAnns[1..][k - 1];
      r
  }

  /** `handleErase`: scan the page's annotations in order, skip those the
      user may not delete, test the click against the type's geometry, and
      report the first one hit (the id handed to `onAnnotationDelete`). */
  method HandleErase(annotations: seq<Annotation>, pageNumber: int, currentUser: Role, x: int, y: int)
    returns (deleted: Option<string>)
    ensures deleted == EraseTarget(PageAnnotations(annotations, pageNumber), currentUser, Point(x, y))
  {
    var pageAnns := PageAnnotations(annotations, pageNumber);
    var p := Point(x, y);
    for i := 0 to |pageAnns|
      invariant forall k :: 0 <= k < i ==> !Erasable(currentUser, pageAnns[k], p)
    {
      var annotation := pageAnns[i];
      if !CanDelete(currentUser, annotation) {
        continue;
      }
      match annotation.data {
        case Highlight(_, _, _, rects) =>
          for j := 0 to |rects|
            invariant forall k :: 0 <= k < j ==> !InRect(rects[k], p)
          {
            if InRect(rects[j], p) {
              FirstErasable(pageAnns, currentUser, p, i);
              return Some(annotation.id);
            }
          }
        case Draw(_, paths) =>
          for j := 0 to |paths|
            invariant forall k, m :: 0 <= k < j && 0 <= m < |paths[k].points| ==> !NearVertex(paths[k].points[m], p)
          {
            var points := paths[j].points;
            for m := 0 to |points|
              invariant forall n :: 0 <= n < m ==> !NearVertex(points[n], p)
            {
              if NearVertex(points[m], p) {
                FirstErasable(pageAnns, currentUser, p, i);
                return Some(annotation.id);
              }
            }
          }
        case Comment(_, _, _, _, _) =>
      }
    }
    return None;
  }

  /** The first erasable annotation is the one `EraseTarget` names. */
  lemma FirstErasable(pageAnns: seq<Annotation>, currentUser: Role, p: Point, i: nat)
    requires i < |pageAnns| && Erasable(currentUser, pageAnns[i], p)
    requires forall k :: 0 <= k < i ==> !Erasable(currentUser, pageAnns[k], p)
    ensures EraseTarget(pageAnns, currentUser, p) == Some(pageAnns[i].id)
  {
    var r := EraseTarget(pageAnns, currentUser, p);
    var k :| 0 <= k < |pageAnns| && pageAnns[k].id == r.value && Erasable(currentUser, pageAnns[k], p)
             && forall j :: 0 <= j < k ==> !Erasable(currentUser, pageAnns[j], p);
    assert k == i;
  }

  /** A point on an edge or corner of a rectangle is a hit; one unit beyond
      any edge is not. */
  lemma RectEdges(r: Rect, t: int, s: int)
    requires r.y <= t <= r.y + r.height
    requires r.x <= s <= r.x + r.width
    ensures InRect(r, Point(r.x, t)) && InRect(r, Point(r.x + r.width, t))
    ensures InRect(r, Point(s, r.y)) && InRect(r, Point(s, r.y + r.height))
    ensures !InRect(r, Point(r.x - 1, t)) && !InRect(r, Point(r.x + r.width + 1, t))
    ensures !InRect(r, Point(s, r.y - 1)) && !InRect(r, Point(s, r.y + r.height + 1))
  {
  }

  /** A click erases a vertex exactly when its offset is at most ten pixels
      long, in any direction; for instance (10, 0) and (-6, 8) erase, (11, 0)
      and (8, -7) do not. */
  lemma EraserReach(v: Point, dx: int, dy: int)
    ensures NearVertex(v, Point(v.x + dx, v.y + dy)) <==> dx * dx + dy * dy <= 100
    ensures NearVertex(v, Point(v.x + 10, v.y)) && NearVertex(v, Point(v.x - 6, v.y + 8))
    ensures !NearVertex(v, Point(v.x + 11, v.y)) && !NearVertex(v, Point(v.x + 8, v.y - 7))
  {
  }

  /** Whatever is erased is something the server will let the user delete,
      and is never a comment. */
  lemma ErasedIsDeletable(pageAnns: seq<Annotation>, currentUser: Role, p: Point)
    requires EraseTarget(pageAnns, currentUser, p).Some?
    ensures exists k :: 0 <= k < |pageAnns| && pageAnns[k].id == EraseTarget(pageAnns, currentUser, p).value
                        && AnnotationController.MayMutate(pageAnns[k], currentUser) && !pageAnns[k].data.Comment?
  {
    var k :| 0 <= k < |pageAnns| && pageAnns[k].id == EraseTarget(pageAnns, currentUser, p).value
             && Erasable(currentUser, pageAnns[k], p);
  }

  /** Two overlapping highlights, the earlier one owned by another
      annotator: a click on the overlap erases the user's own, later one. */
  lemma OverlapSkipsForeign(p: Point, r: Rect, q: Rect)
    requires InRect(r, p) && InRect(q, p)
    ensures EraseTarget(
              [Annotation("h1", "doc", D2, Highlight(1, "a", "#f00", [r]), true, [], "t1"),
               Annotation("h2", "doc", D1, Highlight(1, "b", "#f00", [q]), true, [], "t2")],
              D1, p) == Some("h2")
  {
    var a2 := Annotation("h2", "doc", D1, Highlight(1, "b", "#f00", [q]), true, [], "t2");
    assert IsHit(a2, p) by {
      assert [q][0] == q;
    }
    assert [a2][1..] == [];
  }

  // ---------------------------------------------------------------------
  // Pointer gestures
  // ---------------------------------------------------------------------

  /** The layer's gesture state: whether a stroke is in progress, its points
      so far, and where a comment dialog was opened. */
  class Gestures {
    var isDrawing: bool
    var drawPath: seq<Point>
    var commentPosition: Option<Point>

    constructor ()
      ensures !isDrawing && drawPath == [] && commentPosition == None
    {
      isDrawing, drawPath, commentPosition := false, [], None;
    }

    /** `handleMouseDown`: start a stroke, open a comment dialog, or erase. */
    method MouseDown(tool: Option<Tool>, canAnnotate: bool, p: Point,
                     annotations: seq<Annotation>, pageNumber: int, currentUser: Role)
      returns (erased: Option<string>)
      modifies this
      ensures tool == Some(EraserTool) && canAnnotate
              ==> erased == EraseTarget(PageAnnotations(annotations, pageNumber), currentUser, p)
      ensures !(tool == Some(EraserTool) && canAnnotate) ==> erased == None
      ensures if tool == Some(DrawTool) && canAnnotate
              then isDrawing && drawPath == [p]
              else isDrawing == old(isDrawing) && drawPath == old(drawPath)
      ensures commentPosition == if tool == Some(CommentTool) && canAnnotate then Some(p) else old(commentPosition)
    {
      erased := None;
      if !canAnnotate || tool.None? {
        return;
      }
      match tool.value {
        case DrawTool =>
          isDrawing := true;
          drawPath := [p];
        case CommentTool =>
          commentPosition := Some(p);
        case EraserTool =>
          erased := HandleErase(annotations, pageNumber, currentUser, p.x, p.y);
        case HighlightTool =>
      }
    }

    /** `handleMouseMove`: extend the stroke in progress by one point. */
    method MouseMove(tool: Option<Tool>, p: Point)
      modifies this
      ensures drawPath == if isDrawing && tool == Some(DrawTool) then old(drawPath) + [p] else old(drawPath)
      ensures isDrawing == old(isDrawing) && commentPosition == old(commentPosition)
    {
      if !isDrawing || tool != Some(DrawTool) {
        return;
      }
      drawPath := drawPath + [p];
    }

    /** `handleMouseUp`: a stroke of more than one point becomes a draft of
      one path, of width 2, on the current page; the stroke ends either way. */
    method MouseUp(tool: Option<Tool>, pageNumber: int, currentColor: string) returns (created: Option<Draft>)
      modifies this
      ensures created.Some? <==> old(isDrawing) && tool == Some(DrawTool) && |old(drawPath)| > 1
      ensures created.Some? ==>
                created.value == Draft(Some(DrawKind), Some(Draw(pageNumber, [Path(old(drawPath), currentColor, 2)])))
                && drawPath == []
      ensures created.None? ==> drawPath == old(drawPath)
      ensures !isDrawing && commentPosition == old(commentPosition)
    {
      created := None;
      if isDrawing && tool == Some(DrawTool) && |drawPath| > 1 {
        created := Some(Draft(Some(DrawKind), Some(Draw(pageNumber, [Path(drawPath, currentColor, 2)]))));
        drawPath := [];
      }
      isDrawing := false;
    }
  }

  /** A click without movement draws nothing; a press, one move and a
      release draw the two-point stroke. */
  method StrokeScenario(p: Point, q: Point, pageNumber: int, color: string, user: Role)
    returns (tap: Option<Draft>, drag: Option<Draft>)
    ensures tap == None
    ensures drag == Some(Draft(Some(DrawKind), Some(Draw(pageNumber, [Path([p, q], color, 2)]))))
  {
    var g := new Gestures();
    var e := g.MouseDown(Some(DrawTool), true, p, [], pageNumber, user);
    tap := g.MouseUp(Some(DrawTool), pageNumber, color);
    e := g.MouseDown(Some(DrawTool), true, p, [], pageNumber, user);
    g.MouseMove(Some(DrawTool), q);
    assert [p] + [q] == [p, q];
    drag := g.MouseUp(Some(DrawTool), pageNumber, color);
  }
}
