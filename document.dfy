/**
 * The document manager: the viewer's zoom controls, the list query, and the upload and
 * update handlers with their validation and outcome messages.
 */
module DocumentManager {
  import opened Common

  const MinZoom: int := 25
  const MaxZoom: int := 300
  const ZoomStep: int := 25
  const DefaultZoom: int := 100

  /** Zoom levels reachable from 100: multiples of 25 between 25 and 300. */
  predicate ValidZoom(z: int) {
    MinZoom <= z <= MaxZoom && z % ZoomStep == 0
  }

  /** `handleZoomIn`: one step up, stopping at 300. */
  function ZoomedIn(z: int): (r: int)
    ensures ValidZoom(z) ==> ValidZoom(r)
    ensures z >= MaxZoom - ZoomStep ==> r == MaxZoom
    ensures z < MaxZoom - ZoomStep ==> r == z + ZoomStep
  {
    if z + ZoomStep < MaxZoom then z + ZoomStep else MaxZoom
  }

  /** `handleZoomOut`: one step down, stopping at 25. */
  function ZoomedOut(z: int): (r: int)
    ensures ValidZoom(z) ==> ValidZoom(r)
    ensures z <= MinZoom + ZoomStep ==> r == MinZoom
    ensures z > MinZoom + ZoomStep ==> r == z - ZoomStep
  {
    if z - ZoomStep > MinZoom then z - ZoomStep else MinZoom
  }

  /** Below the top, zooming out undoes zooming in; above the bottom, the other way round. */
  lemma ZoomRoundTrip(z: int)
    requires ValidZoom(z)
    ensures z < MaxZoom ==> ZoomedOut(ZoomedIn(z)) == z
    ensures z > MinZoom ==> ZoomedIn(ZoomedOut(z)) == z
  {
  }

  /** A document row; `id` is the backend's key. */
  datatype Doc = Doc(id: int, userName: string, staffId: string, documentName: string)

  /** The upload form; `document` is the chosen file, `None` until one is picked. */
  datatype UploadForm = UploadForm(userName: string, staffId: string, documentName: string, document: Option<string>)

  const EmptyForm: UploadForm := UploadForm("", "", "", None)

  /** A backend answer: success with an optional payload, a refusal with an optional message, or no answer. */
  datatype Outcome<T> = Succeeded(data: Option<T>) | Refused(message: Option<string>) | NetworkError

  /** `message || fallback`: the message unless it is missing or empty. */
  function MessageOr(message: Option<string>, fallback: string): (r: string)
    ensures (message.Some? && message.value != "") ==> r == message.value
    ensures (message.None? || message.value == "") ==> r == fallback
  {
    if message.Some? && message.value != "" then message.value else fallback
  }

  /** Joins the query parameters as `k=v` pairs separated by `&` (no percent-encoding). */
  function Serialize(params: seq<(string, string)>): string {
    if params == [] then ""
    else if |params| == 1 then params[0].0 + "=" + params[0].1
    else params[0].0 + "=" + params[0].1 + "&" + Serialize(params[1..])
  }

  /**
   * The list request's query: `staff_id` when its filter is set, then `user_name` when the
   * search term is set; `?` only when there is a parameter.
   */
  method BuildQuery(baseUrl: string, filterStaffId: string, searchTerm: string)
    returns (params: seq<(string, string)>, url: string)
    ensures |params| == (if filterStaffId != "" then 1 else 0) + (if searchTerm != "" then 1 else 0)
    ensures filterStaffId != "" ==> params[0] == ("staff_id", filterStaffId)
    ensures searchTerm != "" ==> params[|params| - 1] == ("user_name", searchTerm)
    ensures params == [] ==> url == baseUrl
    ensures params != [] ==> url == baseUrl + "?" + Serialize(params)
  {
    params := [];
    if filterStaffId != "" {
      params := params + [("staff_id", filterStaffId)];
    }
    if searchTerm != "" {
      params := params + [("user_name", searchTerm)];
    }
    url := baseUrl;
    if params != [] {
      url := url + "?" + Serialize(params);
    }
  }

  /** The upload validation: every text field filled in and a file chosen. */
  predicate Complete(form: UploadForm)
    ensures Complete(form) ==> form.document.Some? && |form.userName| > 0 && |form.staffId| > 0 && |form.documentName| > 0
    ensures form == EmptyForm ==> !Complete(form)
  {
    form.userName != "" && form.staffId != "" && form.documentName != "" && form.document.Some?
  }

  class Manager {
    var zoom: int
    var documents: seq<Doc>
    var error: string
    var success: string
    var loading: bool
    var showUploadModal: bool
    var showEditModal: bool
    var uploadForm: UploadForm
    var editing: Option<Doc>

    ghost predicate Valid()
      reads this
    {
      ValidZoom(zoom)
    }

    constructor()
      ensures Valid() && zoom == DefaultZoom && documents == [] && error == "" && success == ""
      ensures !loading && !showUploadModal && !showEditModal && uploadForm == EmptyForm && editing == None
    {
      zoom := DefaultZoom;
      documents := [];
      error := "";
      success := "";
      loading := false;
      showUploadModal := false;
      showEditModal := false;
      uploadForm := EmptyForm;
      editing := None;
    }

    method ZoomIn()
      requires Valid()
      modifies this`zoom
      ensures Valid() && zoom == ZoomedIn(old(zoom))
      ensures old(zoom) == MaxZoom ==> zoom == old(zoom)
    {
      zoom := ZoomedIn(zoom);
    }

    method ZoomOut()
      requires Valid()
      modifies this`zoom
      ensures Valid() && zoom == ZoomedOut(old(zoom))
      ensures old(zoom) == MinZoom ==> zoom == old(zoom)
    {
      zoom := ZoomedOut(zoom);
    }

    /** `handleZoomReset`, and the zoom reset when the viewer opens a document. */
    method ZoomReset()
      requires Valid()
      modifies this`zoom
      ensures Valid() && zoom == DefaultZoom
    {
      zoom := DefaultZoom;
    }

    /** `fetchDocuments` once its answer is in. */
    method FetchDocuments(reply: Outcome<seq<Doc>>)
      requires Valid()
      modifies this`documents, this`error, this`loading
      ensures Valid() && !loading
      ensures reply.Succeeded? ==> documents == reply.data.GetOr([]) && error == ""
      ensures reply.Refused? ==> documents == [] && error == MessageOr(reply.message, "Failed to fetch documents")
      ensures reply.NetworkError? ==> documents == [] && error == "Network error occurred"
    {
      loading := true;
      match reply {
      case Succeeded(data) =>
        documents := data.GetOr([]);
        error := "";
      case Refused(message) =>
        error := MessageOr(message, "Failed to fetch documents");
        documents := [];
      case NetworkError =>
        error := "Network error occurred";
        documents := [];
      }
      loading := false;
    }

    /**
     * `handleUpload`: an incomplete form only sets the error and sends nothing; otherwise the
     * reply decides. `refresh` says that the list is fetched again.
     */
    method HandleUpload(reply: Outcome<bool>) returns (sent: bool, refresh: bool)
      requires Valid()
      modifies this
      ensures Valid() && zoom == old(zoom) && documents == old(documents) && editing == old(editing)
      ensures showEditModal == old(showEditModal)
      ensures sent == Complete(old(uploadForm))
      ensures !sent ==> (error == "Please fill all fields and select a file" && !refresh
                        && success == old(success) && loading == old(loading)
                        && showUploadModal == old(showUploadModal) && uploadForm == old(uploadForm))
      ensures sent ==> !loading
      ensures sent && reply.Succeeded? ==> (refresh && success == "Document uploaded successfully!"
                                          && !showUploadModal && uploadForm == EmptyForm && error == old(error))
      ensures sent && reply.Refused? ==> (!refresh && error == MessageOr(reply.message, "Upload failed")
                                        && success == old(success) && uploadForm == old(uploadForm)
                                        && showUploadModal == old(showUploadModal))
      ensures sent && reply.NetworkError? ==> (!refresh && error == "Network error occurred during upload"
                                             && success == old(success) && uploadForm == old(uploadForm)
                                             && showUploadModal == old(showUploadModal))
    {
      refresh := false;
      sent := false;
      if !Complete(uploadForm) {
        error := "Please fill all fields and select a file";
        return;
      }
      sent := true;
      loading := true;
      match reply {
      case Succeeded(_) =>
        success := "Document uploaded successfully!";
        showUploadModal := false;
        uploadForm := EmptyForm;
        refresh := true;
      case Refused(message) =>
        error := MessageOr(message, "Upload failed");
      case NetworkError =>
        error := "Network error occurred during upload";
      }
      loading := false;
    }

    /** `handleUpdate`: with no document being edited nothing happens at all. */
    method HandleUpdate(reply: Outcome<bool>) returns (sent: bool, refresh: bool)
      requires Valid()
      modifies this
      ensures Valid() && zoom == old(zoom) && documents == old(documents) && uploadForm == old(uploadForm)
      ensures showUploadModal == old(showUploadModal)
      ensures sent == old(editing).Some?
      ensures !sent ==> (!refresh && editing == old(editing) && error == old(error)
                        && success == old(success) && loading == old(loading) && showEditModal == old(showEditModal))
      ensures sent ==> !loading
      ensures sent && reply.Succeeded? ==> (refresh && success == "Document updated successfully!"
                                          && !showEditModal && editing == None && error == old(error))
      ensures sent && reply.Refused? ==> (!refresh && error == MessageOr(reply.message, "Update failed")
                                        && success == old(success)
                                        && editing == old(editing) && showEditModal == old(showEditModal))
      ensures sent && reply.NetworkError? ==> (!refresh && error == "Network error occurred during update"
                                             && success == old(success)
                                             && editing == old(editing) && showEditModal == old(showEditModal))
    {
      refresh := false;
      sent := false;
      if editing.None? {
        return;
      }
      sent := true;
      loading := true;
      match reply {
      case Succeeded(_) =>
        success := "Document updated successfully!";
        showEditModal := false;
        editing := None;
        refresh := true;
      case Refused(message) =>
        error := MessageOr(message, "Update failed");
      case NetworkError =>
        error := "Network error occurred during update";
      }
      loading := false;
    }
  }

  datatype Press = In | Out | Reset

  /** The zoom after a sequence of presses on the viewer's controls. */
  function ZoomAfter(z: int, presses: seq<Press>): int
    decreases |presses|
  {
    if presses == [] then z
    else
      var next := match presses[0] case In => ZoomedIn(z) case Out => ZoomedOut(z) case Reset => DefaultZoom;
      ZoomAfter(next, presses[1..])
  }

  /** From a valid level, any sequence of presses ends on a valid level. */
  lemma {:induction false} ZoomAfterValid(z: int, presses: seq<Press>)
    requires ValidZoom(z)
    ensures ValidZoom(ZoomAfter(z, presses))
    decreases |presses|
  {
    if presses != [] {
      var next := match presses[0] case In => ZoomedIn(z) case Out => ZoomedOut(z) case Reset => DefaultZoom;
      ZoomAfterValid(next, presses[1..]);
    }
  }

  /** Starting from 100, the zoom is always a multiple of 25 between 25 and 300. */
  lemma ZoomFromDefault(presses: seq<Press>)
    ensures var z := ZoomAfter(DefaultZoom, presses); 25 <= z <= 300 && z % 25 == 0
  {
    ZoomAfterValid(DefaultZoom, presses);
  }
}
