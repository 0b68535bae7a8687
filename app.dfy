/** The page component as an object: its five state fields and one method per
    event handler. Each method states the new value of every field and that
    the whole state moved as the matching transition of module Workflow, so
    the lemmas proved there about runs hold of the component. */
module UploadApp {
  import opened Wrappers
  import opened Workflow

  class App {
    var image: Option<File>
    var preview: Option<PreviewUrl>
    var loading: bool
    var result: Option<Prediction>
    var dragActive: bool

    /** The fields as one value. */
    function Snapshot(): State
      reads this
    {
      State(image, preview, loading, result, dragActive)
    }

    /** The first render: nothing selected, nothing in flight, no result. */
    constructor ()
      ensures image == None && preview == None && result == None
      ensures !loading && !dragActive
      ensures Snapshot() == Initial()
    {
      image := None;
      preview := None;
      loading := false;
      result := None;
      dragActive := false;
    }

    /** `handleFile`: shows the chosen file and clears the last result. */
    method HandleFile(f: File)
      modifies this
      ensures image == Some(f) && preview == Some(ObjectUrl(f)) && result == None
      ensures loading == old(loading) && dragActive == old(dragActive)
      ensures Snapshot() == Step(old(Snapshot()), Pick(f))
    {
      image := Some(f);
      preview := Some(ObjectUrl(f));
      result := None;
    }

    /** `handleFile` with no file, as the file input's change handler calls it
        for an empty file list: the image is cleared, and the handler then
        throws while creating the object URL, so no other field changes. */
    method HandleNoFile()
      modifies this
      ensures image == None
      ensures preview == old(preview) && result == old(result)
      ensures loading == old(loading) && dragActive == old(dragActive)
      ensures Snapshot() == Step(old(Snapshot()), PickNothing)
    {
      image := None;
    }

    /** `handleDrop`: always ends the drag highlight; an absent or empty file
        list changes nothing else, otherwise the first file is handled. */
    method HandleDrop(files: Option<seq<File>>)
      modifies this
      ensures !dragActive && loading == old(loading)
      ensures files.None? || files.value == [] ==>
        image == old(image) && preview == old(preview) && result == old(result)
      ensures files.Some? && files.value != [] ==>
        image == Some(files.value[0]) && preview == Some(ObjectUrl(files.value[0])) && result == None
      ensures Snapshot() == Step(old(Snapshot()), Drop(files))
    {
      dragActive := false;
      if files.Some? && |files.value| > 0 {
        HandleFile(files.value[0]);
      }
    }

    /** The drag-over handler: raises the drag highlight and nothing else. */
    method HandleDragOver()
      modifies this
      ensures dragActive
      ensures image == old(image) && preview == old(preview)
      ensures loading == old(loading) && result == old(result)
      ensures Snapshot() == Step(old(Snapshot()), DragOver)
    {
      dragActive := true;
    }

    /** The drag-leave handler: lowers the drag highlight and nothing else. */
    method HandleDragLeave()
      modifies this
      ensures !dragActive
      ensures image == old(image) && preview == old(preview)
      ensures loading == old(loading) && result == old(result)
      ensures Snapshot() == Step(old(Snapshot()), DragLeave)
    {
      dragActive := false;
    }

    /** The predict handler up to its awaited request. When no image is
        selected or a request is already in flight it returns without sending
        anything and without changing any field; otherwise it raises `loading`
        and sends the selected image. */
    method StartPredict() returns (sent: Option<File>)
      modifies this
      ensures old(image.None? || loading) ==> sent == None && Snapshot() == old(Snapshot())
      ensures old(image.Some? && !loading) ==>
        sent == old(image) && loading && Snapshot() == old(Snapshot()).(loading := true)
      ensures sent == Request(old(Snapshot()))
      ensures Snapshot() == Step(old(Snapshot()), Click)
    {
      if image.None? || loading {
        return None;
      }
      loading := true;
      sent := image;
    }

    /** The predict handler after its request ends: a reply body becomes the
        result, a failure keeps the old one; `loading` ends false either way
        and the image and preview are untouched. It runs only after
        `StartPredict` sent a request, so `loading` is raised. */
    method CompletePredict(r: Response)
      requires loading
      modifies this
      ensures !loading
      ensures result == if r.Ok? then Some(r.data) else old(result)
      ensures image == old(image) && preview == old(preview) && dragActive == old(dragActive)
      ensures Snapshot() == Step(old(Snapshot()), Reply(r))
    {
      if r.Ok? {
        result := Some(r.data);
      }
      loading := false;
    }
  }
}
