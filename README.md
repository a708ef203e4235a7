# PDF annotator: access control and spatial resolution, in Dafny

This project models the core of a multi-role PDF annotator. Users act under one
of four roles: `A1` is the admin, `D1` and `D2` are annotators, and `R1` can only
read. They attach highlights, comments and freehand drawings to a shared PDF.
The model covers five pieces of the program:

- **Visibility and mutation permission** (backend annotation controller). An
  annotation is visible to a viewer by a first-match rule over the viewer's
  role, the creator, the private flag and the sharing list. A fetch is that
  rule applied as a filter over the document's stored annotations. Only the
  creator or the admin may update or delete an annotation. Create validates
  the request and fills in defaults. Update replaces only the fields it is
  given. The database collection is the `records` field of the class
  `AnnotationStore`.
- **Role-check middleware** (`Auth`). It decides 401, 403 or "pass on" from the
  role header.
- **Annotation layer** (`AnnotationLayer`). It keeps the annotations of the
  current page, applies the client-side delete permission, and runs the eraser
  hit-test. The hit-test is a nested loop with early return (`HandleErase`).
  Highlights are hit by inclusive rectangle containment. Drawings are hit by a
  vertex within radius 10. Comments are never hit. The layer also records the
  freehand stroke (`Gestures`).
- **Viewer page** (`PdfViewerPage`). Its annotation list changes optimistically:
  a create appends a record with a temporary id, which is then replaced by the
  server's record or removed. A delete removes the record at once and puts it
  back at the end if the server call fails.
- **Sharing panel** (`VisibilitySelector`). It holds a private/shared switch
  and a list of selected roles. Each handler reports the pair
  `(isPrivate, visibility)` to the page.

Files: `wrappers.dfy` (the `Option` type), `seqs.dfy` (generic order-preserving filter and its laws),
`annotations.dfy` (roles, geometry, the annotation record, id lookup),
`annotation_controller.dfy`, `auth.dfy`, `annotation_layer.dfy`,
`pdf_viewer_page.dfy`, `visibility_selector.dfy`.

Modelling choices:

- Coordinates are integers. The eraser compares the squared distance with 100,
  which gives the same answer as comparing the distance with 10.
- An annotation's `type` is the tag of its payload. The payload is a tagged
  union: `Highlight`, `Comment` or `Draw`.
- The database checks id well-formedness with `ObjectId.isValid`. Here it is a
  parameter `validId`.
- Server ids, temporary ids and timestamps are parameters. So is the outcome
  of each server call.
- Each asynchronous handler of the page is split in two: the step before the
  server call, and one method per outcome. Other updates may run in between.
- Four behaviours of the code are easy to miss. The model reproduces each:
  1. The client does not check visibility again. The page shows what the server
     sent.
  2. The temporary record is matched by its id, not by its structure.
  3. A failed delete puts the record back at the end, so the order is not
     restored (`RestoreMayReorder`).
  4. Nothing stops a private annotation from having a non-empty sharing list.

## Model

| member | source | states |
|---|---|---|
| `AnnotationController.VisibilityRule` | backend/src/controllers/annotationController.ts:54-77 | the first-match rule equals an order-free one: visible iff the viewer is not `R1` and is the creator, or the annotation is shared and the viewer is the admin or listed |
| `AnnotationController.ReaderSeesNone` | backend/src/controllers/annotationController.ts:56-58 | `R1` sees no annotation, whoever created it and however it is shared |
| `AnnotationController.AuthorSeesOwn` | backend/src/controllers/annotationController.ts:61-63 | a creator other than `R1` always sees its own annotation, private or not |
| `AnnotationController.PrivateHiddenFromOthers` | backend/src/controllers/annotationController.ts:66-68 | a private annotation is hidden from every non-creator, the admin included |
| `AnnotationController.AdminSeesShared` | backend/src/controllers/annotationController.ts:70-73 | the admin sees every non-private annotation |
| `AnnotationController.SharedGatedByList` | backend/src/controllers/annotationController.ts:75-76 | any other non-creator sees a shared annotation iff its role is in `visibility` |
| `AnnotationController.ReaderFetchesNothing` | backend/src/controllers/annotationController.ts:54-58 | a fetch made as `R1` returns the empty list for every store |
| `AnnotationController.VisibleMember` | backend/src/controllers/annotationController.ts:54-77 | an annotation is in the fetch result iff it is stored and visible to the viewer |
| `AnnotationController.VisibleInOrder` | backend/src/controllers/annotationController.ts:54-77 | the fetch result is an order-preserving sublist of the stored list |
| `AnnotationController.VisibleLocal` | backend/src/controllers/annotationController.ts:54-77 | filtering distributes over concatenation, so whether one annotation is sent does not depend on the others |
| `AnnotationController.PrivateHighlightScenario` | backend/src/controllers/annotationController.ts:54-77 | D1's private highlight on page 2 reaches D1 only: D2's and A1's fetches exclude it |
| `AnnotationController.SharedCommentScenario` | backend/src/controllers/annotationController.ts:54-77 | D1's comment shared with D2 reaches D2 and A1 and never R1 |
| `AnnotationController.Viewer` | backend/src/controllers/annotationController.ts:44 | the fetch's role is the header's role, or `R1` when the header is absent |
| `AnnotationController.Actor` | backend/src/controllers/annotationController.ts:8 | the role of a create, update or delete is the header's role, or `D1` when the header is absent (also lines 90 and 129) |
| `AnnotationController.IsVisible` | backend/src/controllers/annotationController.ts:54-77 | the first-match chain; whatever it admits is seen by a role other than `R1`, and is either the viewer's own or not private |
| `AnnotationController.VisibleAnnotations` | backend/src/controllers/annotationController.ts:54 | the fetch filter: the result is no longer than the stored list and holds only annotations visible to the viewer |
| `AnnotationController.MayMutate` | backend/src/controllers/annotationController.ts:101-106 | the permission of update and delete (also lines 140-145): the actor is the admin or the creator |
| `AnnotationController.Authorize` | backend/src/controllers/annotationController.ts:92-106 | update/delete checks in order: malformed id gives 400; otherwise no record with the id gives 404; otherwise the first such record owned by someone else, with a non-admin actor, gives 403; otherwise the index of a record with that id that the actor may change |
| `AnnotationController.ForbiddenIff` | backend/src/controllers/annotationController.ts:101-106 | when ids are distinct, 403 happens iff `createdBy != actor && actor != A1`; otherwise the record is found |
| `AnnotationController.NewRecord` | backend/src/controllers/annotationController.ts:7-27 | missing `documentId`/`type`/`data` gives 400 before the id check; an ill-formed id gives 400; otherwise the record carries the new id, the creator, the document and the payload, is private unless `isPrivate` is explicitly false, and has `visibility` defaulting to [] |
| `AnnotationController.ApplyPatch` | backend/src/controllers/annotationController.ts:108-112 | supplied fields are replaced; absent ones, and always id, document, creator and creation time, are kept |
| `AnnotationController.PatchIdempotent` | backend/src/controllers/annotationController.ts:108-112 | applying the same update twice equals applying it once |
| `AnnotationController.EmptyPatchIdentity` | backend/src/controllers/annotationController.ts:108-112 | an update with no fields leaves the record unchanged |
| `AnnotationController.AnnotationStore.CreateAnnotation` | backend/src/controllers/annotationController.ts:5-34 | the header defaults to `D1`; a refused request stores nothing; an accepted one appends exactly its record; ids stay distinct |
| `AnnotationController.AnnotationStore.GetAnnotationsByDocument` | backend/src/controllers/annotationController.ts:41-79 | ill-formed id gives 400; otherwise the result holds exactly the document's stored annotations visible to the viewer, in stored order; with no header the viewer is `R1` and the result is empty |
| `AnnotationController.AnnotationStore.UpdateAnnotation` | backend/src/controllers/annotationController.ts:86-119 | on a 400/404/403 the store is unchanged; otherwise only the found record changes, to the patched record |
| `AnnotationController.AnnotationStore.DeleteAnnotation` | backend/src/controllers/annotationController.ts:126-152 | on a 400/404/403 the store is unchanged; otherwise exactly the records with that id are gone |
| `Annotations.FindIndex` | backend/src/controllers/annotationController.ts:96 | lookup by id: none iff no record has the id; otherwise the first index carrying it |
| `Annotations.RemoveAtIsFilter` | backend/src/controllers/annotationController.ts:147 | when ids are distinct, deleting the one record found equals filtering out its id |
| `Auth.Parse` | backend/src/middlewares/auth.ts:4-11 | a header value names a role iff it is one of "A1", "D1", "D2", "R1", and then it is that role's name |
| `Auth.ParseName` | backend/src/middlewares/auth.ts:4-11 | every role's name parses back to that role |
| `Auth.CheckRole` | backend/src/middlewares/auth.ts:14-31 | a missing or unknown role header gives 401; a valid role in `allowedRoles` passes; a valid role not in it gives 403; exactly one of the three holds |
| `Auth.IsAdmin` | backend/src/middlewares/auth.ts:36 | only the header "A1" passes; the other valid roles are forbidden |
| `Auth.IsUser` | backend/src/middlewares/auth.ts:39-44 | every valid role passes and nothing is ever forbidden |
| `AnnotationLayer.PageMember` | frontend/src/components/AnnotationLayer/AnnotationLayer.tsx:48-51 | an annotation is on the page list iff it is in the list and its payload's page number is the current page |
| `AnnotationLayer.PageInOrder` | frontend/src/components/AnnotationLayer/AnnotationLayer.tsx:48-51 | the page list is an order-preserving sublist of the annotations |
| `AnnotationLayer.CanDelete` | frontend/src/components/AnnotationLayer/AnnotationLayer.tsx:325-327 | `canDelete` holds iff the server's creator-or-admin rule (`MayMutate`) permits the user to delete |
| `AnnotationLayer.PageAnnotations` | frontend/src/components/AnnotationLayer/AnnotationLayer.tsx:48-51 | the page list is no longer than the list, and every annotation on it has the current page number |
| `AnnotationLayer.InRect` | frontend/src/components/AnnotationLayer/AnnotationLayer.tsx:117-123 | inclusive containment; a rectangle with negative width or height contains no point |
| `AnnotationLayer.NearVertex` | frontend/src/components/AnnotationLayer/AnnotationLayer.tsx:131-137 | a click within the eraser radius of a vertex is at most 10 px from it along each axis |
| `AnnotationLayer.IsHit` | frontend/src/components/AnnotationLayer/AnnotationLayer.tsx:114-143 | a highlight is hit through one of its rectangles and a drawing through one of its vertices; a comment is never hit |
| `AnnotationLayer.Gestures.constructor` | frontend/src/components/AnnotationLayer/AnnotationLayer.tsx:40-42 | no stroke in progress, no points, no comment position |
| `AnnotationLayer.EraseTarget` | frontend/src/components/AnnotationLayer/AnnotationLayer.tsx:106-145 | nothing is erased iff no page annotation is both deletable and hit; otherwise the erased id is that of the first one in page order that is |
| `AnnotationLayer.HandleErase` | frontend/src/components/AnnotationLayer/AnnotationLayer.tsx:106-145 | the nested scan with early return reports at most one id, and it is the first deletable, hit annotation of the current page |
| `AnnotationLayer.FirstErasable` | frontend/src/components/AnnotationLayer/AnnotationLayer.tsx:124-125 | returning at the first deletable hit yields exactly the first-match target |
| `AnnotationLayer.RectEdges` | frontend/src/components/AnnotationLayer/AnnotationLayer.tsx:117-123 | every point on each of the four edges of a highlight rectangle is a hit; every point one unit outside an edge, level with it, is not |
| `AnnotationLayer.EraserReach` | frontend/src/components/AnnotationLayer/AnnotationLayer.tsx:131-137 | for every offset `(dx, dy)` from a vertex, the click erases iff `dx*dx + dy*dy <= 100`, that is, iff it is at most 10 px away, in any direction |
| `AnnotationLayer.ErasedIsDeletable` | frontend/src/components/AnnotationLayer/AnnotationLayer.tsx:110-112 | an erased annotation is one the server lets the user delete, and is never a comment |
| `AnnotationLayer.OverlapSkipsForeign` | frontend/src/components/AnnotationLayer/AnnotationLayer.tsx:108-126 | with two overlapping highlights, the earlier one owned by D2, D1's click erases its own later one |
| `AnnotationLayer.Gestures.MouseDown` | frontend/src/components/AnnotationLayer/AnnotationLayer.tsx:84-103 | without permission or tool nothing happens; Draw starts a one-point stroke; Comment records the position; Eraser reports the erase target |
| `AnnotationLayer.Gestures.MouseMove` | frontend/src/components/AnnotationLayer/AnnotationLayer.tsx:148-159 | while drawing with the Draw tool, the point is appended; otherwise nothing changes |
| `AnnotationLayer.Gestures.MouseUp` | frontend/src/components/AnnotationLayer/AnnotationLayer.tsx:162-187 | a create is issued iff a Draw stroke of more than one point is in progress; its draft has one path of width 2 holding the stroke; the stroke always ends |
| `AnnotationLayer.StrokeScenario` | frontend/src/components/AnnotationLayer/AnnotationLayer.tsx:84-187 | a click without movement creates nothing; press, one move and release create the two-point stroke |
| `PdfViewerPage.CanAnnotate` | frontend/src/pages/PdfViewer/PdfViewerPage.tsx:122 | a user may annotate iff the role is `A1`, `D1` or `D2`, that is, every role but `R1` |
| `PdfViewerPage.ReplaceById` | frontend/src/pages/PdfViewer/PdfViewerPage.tsx:157-161 | same length; each element with the id becomes the replacement and every other element is kept |
| `PdfViewerPage.Find` | frontend/src/pages/PdfViewer/PdfViewerPage.tsx:178 | no result iff no record has the id; otherwise the first record in list order that has it |
| `PdfViewerPage.RemoveId` | frontend/src/pages/PdfViewer/PdfViewerPage.tsx:182 | the filter by id (also line 167): no longer than the list, and no record left carries the id |
| `PdfViewerPage.ViewerPage.constructor` | frontend/src/pages/PdfViewer/PdfViewerPage.tsx:21-32 | the page opens at page 1 with no annotations and no tool, private, with an empty sharing list |
| `PdfViewerPage.CommitReplacesInPlace` | frontend/src/pages/PdfViewer/PdfViewerPage.tsx:157-161 | after appending a fresh temporary record, confirmation leaves the earlier list followed by exactly the server record |
| `PdfViewerPage.RollbackRestores` | frontend/src/pages/PdfViewer/PdfViewerPage.tsx:166-168 | when the temporary id is fresh, removing it after the append gives back exactly the earlier list |
| `PdfViewerPage.DeleteRemovesId` | frontend/src/pages/PdfViewer/PdfViewerPage.tsx:182 | after an optimistic delete no record carries the id and every other record remains |
| `PdfViewerPage.DeleteAbsentIsNoOp` | frontend/src/pages/PdfViewer/PdfViewerPage.tsx:178-179 | deleting an id not in the list changes nothing |
| `PdfViewerPage.RestoreKeepsMultiset` | frontend/src/pages/PdfViewer/PdfViewerPage.tsx:190 | when ids are distinct, re-appending the captured record restores the multiset of records |
| `PdfViewerPage.RestoreMayReorder` | frontend/src/pages/PdfViewer/PdfViewerPage.tsx:190 | deleting the first of two records and restoring it yields the other order, so the order is not restored |
| `PdfViewerPage.ViewerPage.UserChanged` | frontend/src/pages/PdfViewer/PdfViewerPage.tsx:79-82 | a role change resets sharing to private with an empty list |
| `PdfViewerPage.ViewerPage.AnnotationsFetched` | frontend/src/pages/PdfViewer/PdfViewerPage.tsx:91 | a fetch replaces the list wholesale |
| `PdfViewerPage.ViewerPage.ChangePage` | frontend/src/pages/PdfViewer/PdfViewerPage.tsx:110-112 | the page number moves by the offset |
| `PdfViewerPage.ViewerPage.HandleVisibilityChange` | frontend/src/pages/PdfViewer/PdfViewerPage.tsx:198-201 | the page adopts the selector's reported sharing settings |
| `PdfViewerPage.ViewerPage.HandleAnnotationCreate` | frontend/src/pages/PdfViewer/PdfViewerPage.tsx:124-141 | no document, type or payload means no change; otherwise exactly one record is appended, with the temporary id, the current role, the payload and the current sharing settings, and the tool is cleared |
| `PdfViewerPage.ViewerPage.CreateSucceeded` | frontend/src/pages/PdfViewer/PdfViewerPage.tsx:157-161 | the temporary record is replaced by the server record in place |
| `PdfViewerPage.ViewerPage.CreateFailed` | frontend/src/pages/PdfViewer/PdfViewerPage.tsx:166-168 | the temporary record is removed |
| `PdfViewerPage.ViewerPage.HandleAnnotationDelete` | frontend/src/pages/PdfViewer/PdfViewerPage.tsx:176-182 | an unknown id changes nothing; otherwise the first record with the id is captured and every record with it is removed |
| `PdfViewerPage.ViewerPage.DeleteFailed` | frontend/src/pages/PdfViewer/PdfViewerPage.tsx:190 | the captured record is re-appended at the end |
| `PdfViewerPage.CreateRoundTrip` | frontend/src/pages/PdfViewer/PdfViewerPage.tsx:124-168 | with a fresh temporary id and nothing in between, failure restores the list and success leaves old list plus server record |
| `PdfViewerPage.DeleteRoundTrip` | frontend/src/pages/PdfViewer/PdfViewerPage.tsx:176-190 | when ids are distinct, a failed optimistic delete restores the multiset of records |
| `VisibilitySelector.Toggled` | frontend/src/components/VisibilitySelector/VisibilitySelector.tsx:34-36 | after the toggle the role is selected iff it was not selected before |
| `VisibilitySelector.SelectAllFor` | frontend/src/components/VisibilitySelector/VisibilitySelector.tsx:43 | select-all never selects oneself or `R1` |
| `VisibilitySelector.OfferedUsers` | frontend/src/components/VisibilitySelector/VisibilitySelector.tsx:93 | no checkbox is offered for oneself, for `A1` or for `R1` |
| `VisibilitySelector.Selector.constructor` | frontend/src/components/VisibilitySelector/VisibilitySelector.tsx:13-14 | the panel starts private with nothing selected |
| `VisibilitySelector.ToggleSelected` | frontend/src/components/VisibilitySelector/VisibilitySelector.tsx:34-35 | toggling a selected role removes every occurrence of it and keeps every other role |
| `VisibilitySelector.ToggleUnselected` | frontend/src/components/VisibilitySelector/VisibilitySelector.tsx:34-36 | toggling an unselected role appends it, once |
| `VisibilitySelector.ToggleKeepsNoDup` | frontend/src/components/VisibilitySelector/VisibilitySelector.tsx:34-36 | toggling keeps the selection free of duplicates |
| `VisibilitySelector.ToggleTwiceRestores` | frontend/src/components/VisibilitySelector/VisibilitySelector.tsx:34-36 | toggling an unselected role twice gives back the original list |
| `VisibilitySelector.SelectAllContents` | frontend/src/components/VisibilitySelector/VisibilitySelector.tsx:42-46 | select-all selects each of `A1`, `D1`, `D2` other than oneself, each once, and never `R1` |
| `VisibilitySelector.OfferedContents` | frontend/src/components/VisibilitySelector/VisibilitySelector.tsx:93 | checkboxes are offered exactly for `D1`/`D2` other than oneself |
| `VisibilitySelector.Selector.UserChanged` | frontend/src/components/VisibilitySelector/VisibilitySelector.tsx:17-21 | a role change clears the selection, sets private and reports `(true, [])` |
| `VisibilitySelector.Selector.PrivateChange` | frontend/src/components/VisibilitySelector/VisibilitySelector.tsx:23-31 | choosing private clears the selection and reports `(true, [])`; choosing shared reports `(false, selectedUsers)` unchanged |
| `VisibilitySelector.Selector.UserToggle` | frontend/src/components/VisibilitySelector/VisibilitySelector.tsx:33-40 | the selection becomes the toggled list, still duplicate-free, and is reported with the current switch |
| `VisibilitySelector.Selector.SelectAll` | frontend/src/components/VisibilitySelector/VisibilitySelector.tsx:42-46 | the selection becomes all shareable roles but oneself and shared mode is reported; the switch is not touched |
| `VisibilitySelector.Selector.SelectNone` | frontend/src/components/VisibilitySelector/VisibilitySelector.tsx:48-51 | the selection is cleared and `(false, [])` is reported |

## Left out

- File upload and download, GridFS streaming, multer storage and the PDF type
  filter are left out. They are I/O and library wrappers.
- Express and CORS wiring and the route table are left out. The route file
  imports a `canAnnotate` middleware that `auth.ts` does not define, so its
  behaviour is not modelled.
- The controllers take the role header as one of the four roles or absent. An
  arbitrary string reaches a handler only past that undefined middleware. Only
  `Auth` models arbitrary strings.
- The 500 replies for database exceptions are not modelled. Neither are
  Mongoose schema validation and the `ObjectId.isValid` algorithm, which is
  the parameter `validId`.
- `AnnotationController.ApplyPatch` has no separate `type` field. The type
  is the payload's tag, so it always follows the payload. The source stores
  `type` and `data` apart (lines 109-110). So an update of `type` alone is
  not modelled. Neither is an update whose `data` is of another kind and
  comes without `type`: in the source the old `type` stays, and it then
  disagrees with `data`. The layer dispatches on `type`
  (AnnotationLayer.tsx lines 114-128), not on the payload.
- `PdfViewerPage.ViewerPage.HandleAnnotationCreate` checks that `draft.kind`
  is present but stores the payload's own tag as the type. The source
  stores `annotation.type` (line 132). A draft whose type disagrees with
  its payload is not modelled.
- `AnnotationController.NewRecord` stores the payload's own tag. A request
  whose `type` disagrees with its payload cannot be represented.
- `AnnotationController.AnnotationStore.CreateAnnotation` requires the new id
  to be fresh. The database guarantees this.
- Coordinates are integers and there is no floating point. `Math.sqrt` is
  replaced by the equivalent squared comparison.
- Canvas rendering and sizing are left out. So are the text-selection capture
  that turns DOM rectangles into highlight rectangles, and the comment dialog
  submission (`handleCommentSubmit`). Highlight rectangles are given inputs.
- `AnnotationLayer.Gestures.MouseUp` clears the stroke at once. The source
  clears it in a `setTimeout`.
- This is async code, with `alert`, `console` and `Date.now()`. Temporary ids,
  timestamps and server outcomes are parameters. Freshness of a temporary id
  is a lemma precondition.
- `PdfViewerPage.ViewerPage.ChangePage` has no bounds. The page count and the
  disabling of the Previous and Next buttons are rendering.
- The PDF fetch, the header bar, the toolbar and the build configuration are
  UI or configuration.
