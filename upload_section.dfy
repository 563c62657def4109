/**
 * The upload section: choosing a room photo (at most 10 MiB), removing it, and switching between
 * the preview and the region editor. Choosing a new photo also clears the regions, the edited
 * image and the canvas size kept for it. The file reader is an input: `readerResult` is what it
 * delivers once the file is read.
 */
module UploadSection {
  import opened Wrappers
  import opened UserStore

  datatype Step = Upload | Edit

  const MaxUploadBytes: nat := 10 * 1024 * 1024

  const SizeAlert: string := "파일 크기는 10MB 이하여야 합니다."

  /** The size check of handleImageUpload. */
  predicate WithinLimit(size: nat) {
    size <= MaxUploadBytes
  }

  lemma LimitBoundary()
    ensures WithinLimit(10485760) && !WithinLimit(10485761)
  {
  }

  class UploadSection {
    const store: Store
    var step: Step

    constructor (store: Store)
      ensures this.store == store && step == Upload
    {
      this.store := store;
      step := Upload;
    }

    /** handleImageUpload. `fileSize` is None when no file was chosen. Returns the alert shown. */
    method HandleImageUpload(fileSize: Option<nat>, readerResult: Option<string>) returns (alert: Option<string>)
      modifies store
      ensures alert == if fileSize.Some? && !WithinLimit(fileSize.value) then Some(SizeAlert) else None
      ensures fileSize.Some? && WithinLimit(fileSize.value) ==>
        store.Data() == old(store.Data()).(uploadedRoomImg := readerResult) && store.Canvas() == NoCanvas
      ensures !(fileSize.Some? && WithinLimit(fileSize.value)) ==>
        store.Data() == old(store.Data()) && store.Canvas() == old(store.Canvas())
    {
      alert := None;
      if fileSize.Some? {
        if fileSize.value > MaxUploadBytes {
          alert := Some(SizeAlert);
          return;
        }
        store.SetUploadedRoomImg(readerResult);
        store.SetCircles([]);
        store.SetEditedImage(None);
        store.SetCanvasSize(None);
      }
    }

    /** handleRemoveImage: the photo and everything derived from it are cleared. */
    method HandleRemoveImage()
      modifies this, store
      ensures store.Data() == old(store.Data()).(uploadedRoomImg := None)
      ensures store.Canvas() == NoCanvas
      ensures step == Upload
    {
      store.SetUploadedRoomImg(None);
      store.SetCircles([]);
      store.SetEditedImage(None);
      store.SetCanvasSize(None);
      step := Upload;
    }

    method HandleStartEdit()
      modifies this
      ensures step == Edit
    {
      step := Edit;
    }

    /** handleSaveEdit: back to the preview (the scroll that follows is not modelled). */
    method HandleSaveEdit()
      modifies this
      ensures step == Upload
    {
      step := Upload;
    }
  }
}
