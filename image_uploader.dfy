/**
 * The image uploader: picks the image file out of a file input or a drag
 * and drop, warns about types other than JPEG and PNG (but still passes the
 * file on), and, when it is the scene's placement drop zone, turns clicks
 * into placements instead of opening the file dialog.
 */
module ImageUploader {
  import opened Wrappers
  import Positioning

  const AllowedTypes: seq<string> := ["image/jpeg", "image/png"]
  const FileTypeWarning: string := "For best results, please use PNG, JPG, or JPEG formats."

  /** A file with its MIME type. */
  datatype UploadFile = UploadFile(name: string, mimeType: string)

  datatype ItemKind = FileItem | StringItem

  /** A drag item: its kind, its type, and what `getAsFile()` returns. */
  datatype Item = Item(kind: ItemKind, mimeType: string, asFile: Option<UploadFile>)

  /** The `items` and `files` lists of a drop, either of which the browser may leave out. */
  datatype DataTransfer = DataTransfer(items: Option<seq<Item>>, files: Option<seq<UploadFile>>)

  /** `type.startsWith('image/')`. */
  predicate IsImageType(mimeType: string)
  {
    "image/" <= mimeType
  }

  /** An item the item loop returns the file of. */
  predicate Yields(item: Item)
  {
    item.kind == FileItem && IsImageType(item.mimeType) && item.asFile.Some?
  }

  /** The file of the first item that yields one. */
  function FirstYield(items: seq<Item>): (f: Option<UploadFile>)
    ensures f.None? <==> forall i :: 0 <= i < |items| ==> !Yields(items[i])
  {
    if |items| == 0 then None
    else if Yields(items[0]) then items[0].asFile
    else
      assert forall i :: 1 <= i < |items| ==> items[i] == items[1..][i - 1];
      FirstYield(items[1..])
  }

  /** A file found comes from a yielding item with none yielding before it. */
  lemma {:induction false} FirstYieldFound(items: seq<Item>)
    requires FirstYield(items).Some?
    ensures exists i :: 0 <= i < |items| && Yields(items[i]) && FirstYield(items) == items[i].asFile
                        && forall j :: 0 <= j < i ==> !Yields(items[j])
  {
    if !Yields(items[0]) {
      FirstYieldFound(items[1..]);
      var i :| 0 <= i < |items[1..]| && Yields(items[1..][i]) && FirstYield(items[1..]) == items[1..][i].asFile
               && forall j :: 0 <= j < i ==> !Yields(items[1..][j]);
      assert Yields(items[i + 1]) && FirstYield(items) == items[i + 1].asFile;
      assert forall j :: 1 <= j < i + 1 ==> items[j] == items[1..][j - 1];
    } else {
      assert Yields(items[0]) && FirstYield(items) == items[0].asFile;
    }
  }

  /**
   * The file a drop yields: the first image item's file; failing that, the
   * first listed file when it is an image; otherwise none.
   */
  function ExtractImageFile(dt: DataTransfer): (f: Option<UploadFile>)
    ensures dt.items.Some? && FirstYield(dt.items.value).Some? ==> f == FirstYield(dt.items.value)
    ensures f.Some? && (dt.items.None? || FirstYield(dt.items.value).None?) ==>
              dt.files.Some? && |dt.files.value| > 0 && f == Some(dt.files.value[0]) && IsImageType(dt.files.value[0].mimeType)
    ensures f.None? <==> (dt.items.None? || FirstYield(dt.items.value).None?)
                         && (dt.files.None? || |dt.files.value| == 0 || !IsImageType(dt.files.value[0].mimeType))
  {
    if dt.items.Some? && FirstYield(dt.items.value).Some? then FirstYield(dt.items.value)
    else if dt.files.Some? && |dt.files.value| > 0 && IsImageType(dt.files.value[0].mimeType) then Some(dt.files.value[0])
    else None
  }

  /** `extractImageFileFromDataTransfer`: a search loop over the items, then the files fallback. */
  method ExtractImageFileFromDataTransfer(dt: DataTransfer) returns (f: Option<UploadFile>)
    ensures f == ExtractImageFile(dt)
  {
    if dt.items.Some? && |dt.items.value| > 0 {
      var items := dt.items.value;
      var i := 0;
      while i < |items|
        invariant 0 <= i <= |items|
        invariant forall j :: 0 <= j < i ==> !Yields(items[j])
      {
        var item := items[i];
        if item.kind == FileItem && "image/" <= item.mimeType {
          var g := item.asFile;
          if g.Some? {
            FirstYieldIsFirst(items, i);
            return g;
          }
        }
        i := i + 1;
      }
    }
    if dt.files.Some? && |dt.files.value| > 0 {
      var g := dt.files.value[0];
      if "image/" <= g.mimeType {
        return Some(g);
      }
    }
    return None;
  }

  /** The first yielding item is the one the search finds. */
  lemma {:induction false} FirstYieldIsFirst(items: seq<Item>, i: nat)
    requires i < |items| && Yields(items[i])
    requires forall j :: 0 <= j < i ==> !Yields(items[j])
    ensures FirstYield(items) == items[i].asFile
  {
    if i > 0 {
      assert forall j :: 0 <= j < i - 1 ==> items[1..][j] == items[j + 1];
      FirstYieldIsFirst(items[1..], i - 1);
    }
  }

  /** The warning a selected file sets: none exactly for JPEG and PNG. */
  function TypeWarning(file: UploadFile): (w: Option<string>)
    ensures w.None? <==> file.mimeType == "image/jpeg" || file.mimeType == "image/png"
    ensures w.Some? ==> w.value == FileTypeWarning
  {
    if file.mimeType !in AllowedTypes then Some(FileTypeWarning) else None
  }

  /** `acceptsFileDrop`: only an uploader, not a placement drop zone, takes dropped files. */
  function AcceptsFileDrop(isDropZone: bool): bool
  {
    !isDropZone
  }

  /** `isActionable`: clicks are handled by a drop zone, or by an uploader with no image yet. */
  function IsActionable(isDropZone: bool, imageUrl: Option<string>): bool
  {
    isDropZone || imageUrl.None?
  }

  /**
   * `handlePlacement`: the mapper's placement, handed to `onProductDrop` only
   * when there is an image, a callback and a non-null result.
   */
  function Placement(img: Option<Positioning.ImageElement>, hasOnProductDrop: bool, container: Positioning.Rect,
                     clientX: real, clientY: real): (drop: Option<Positioning.Placement>)
    requires img.Some? ==> img.value.naturalWidth >= 0.0 && img.value.naturalHeight >= 0.0
    requires container.width >= 0.0 && container.height >= 0.0
    ensures drop.Some? <==> img.Some? && hasOnProductDrop
                            && Positioning.ComputeRelativePositionFromPoint(img.value, container, clientX, clientY).Some?
    ensures drop.Some? ==> drop.value.position == Positioning.Point(clientX - container.left, clientY - container.top)
    ensures drop.Some? ==> Positioning.InUnitRange(drop.value.relative.xPercent) && Positioning.InUnitRange(drop.value.relative.yPercent)
  {
    if img.None? || !hasOnProductDrop then None
    else Positioning.ComputeRelativePositionFromPoint(img.value, container, clientX, clientY)
  }

  /** What a click on the uploader does. */
  datatype ClickOutcome = Ignored | OpenFileDialog | Placed(drop: Option<Positioning.Placement>)

  /**
   * A click: no handler is attached unless the uploader is actionable; a
   * drop zone with a drop callback places the product, any other click
   * opens the file dialog.
   */
  function Click(isDropZone: bool, imageUrl: Option<string>, img: Option<Positioning.ImageElement>, hasOnProductDrop: bool,
                 container: Positioning.Rect, clientX: real, clientY: real): (c: ClickOutcome)
    requires img.Some? ==> img.value.naturalWidth >= 0.0 && img.value.naturalHeight >= 0.0
    requires container.width >= 0.0 && container.height >= 0.0
    ensures c.Ignored? <==> !isDropZone && imageUrl.Some?
    ensures c.Placed? <==> isDropZone && hasOnProductDrop
    ensures c.OpenFileDialog? <==> (!isDropZone && imageUrl.None?) || (isDropZone && !hasOnProductDrop)
    ensures c.Placed? ==> c.drop == Placement(img, hasOnProductDrop, container, clientX, clientY)
  {
    if !IsActionable(isDropZone, imageUrl) then Ignored
    else if isDropZone && hasOnProductDrop then Placed(Placement(img, hasOnProductDrop, container, clientX, clientY))
    else OpenFileDialog
  }

  /** The uploader's own state: the type warning shown and whether a file is dragged over it. */
  class Uploader {
    var fileTypeError: Option<string>
    var isDraggingOver: bool

    /** The only warning ever shown is the type warning. */
    predicate Valid()
      reads this
    {
      fileTypeError.Some? ==> fileTypeError.value == FileTypeWarning
    }

    constructor ()
      ensures fileTypeError.None? && !isDraggingOver && Valid()
    {
      fileTypeError := None;
      isDraggingOver := false;
    }

    /** The effect on `imageUrl`: the warning is cleared when the image goes away. */
    method ImageUrlChanged(imageUrl: Option<string>)
      requires Valid()
      modifies this`fileTypeError
      ensures fileTypeError == (if imageUrl.None? then None else old(fileTypeError))
      ensures Valid()
    {
      if imageUrl.None? {
        fileTypeError := None;
      }
    }

    /** `handleFileChange`: the first chosen file, if any, is checked and handed to `onFileSelect`. */
    method HandleFileChange(files: seq<UploadFile>) returns (selected: Option<UploadFile>)
      requires Valid()
      modifies this`fileTypeError
      ensures |files| == 0 ==> selected.None? && fileTypeError == old(fileTypeError)
      ensures |files| > 0 ==> selected == Some(files[0]) && fileTypeError == TypeWarning(files[0])
      ensures Valid()
    {
      selected := None;
      if |files| > 0 {
        var file := files[0];
        if file.mimeType !in AllowedTypes {
          fileTypeError := Some(FileTypeWarning);
        } else {
          fileTypeError := None;
        }
        selected := Some(file);
      }
    }

    /** `handleDragOver` and `handleDragEnter`: an uploader shows that it takes the drop. */
    method HandleDragOver(isDropZone: bool)
      modifies this`isDraggingOver
      ensures isDraggingOver == (if AcceptsFileDrop(isDropZone) then true else old(isDraggingOver))
    {
      if !AcceptsFileDrop(isDropZone) {
        return;
      }
      isDraggingOver := true;
    }

    /** `handleDragLeave`; `intoChild` says the pointer moved onto an element inside the uploader. */
    method HandleDragLeave(isDropZone: bool, intoChild: bool)
      modifies this`isDraggingOver
      ensures isDraggingOver == (if AcceptsFileDrop(isDropZone) && !intoChild then false else old(isDraggingOver))
    {
      if !AcceptsFileDrop(isDropZone) {
        return;
      }
      if intoChild {
        return;
      }
      isDraggingOver := false;
    }

    /**
     * `handleDrop`: a drop zone ignores dropped files; an uploader extracts
     * the image file, checks its type and hands it to `onFileSelect`.
     */
    method HandleDrop(isDropZone: bool, dt: DataTransfer) returns (selected: Option<UploadFile>)
      requires Valid()
      modifies this
      ensures isDropZone ==> selected.None? && fileTypeError == old(fileTypeError) && isDraggingOver == old(isDraggingOver)
      ensures !isDropZone ==> selected == ExtractImageFile(dt) && !isDraggingOver
      ensures !isDropZone && selected.Some? ==> fileTypeError == TypeWarning(selected.value)
      ensures selected.None? ==> fileTypeError == old(fileTypeError)
      ensures Valid()
    {
      selected := None;
      if !AcceptsFileDrop(isDropZone) {
        return;
      }
      isDraggingOver := false;
      var file := ExtractImageFileFromDataTransfer(dt);
      if file.None? {
        return;
      }
      if file.value.mimeType !in AllowedTypes {
        fileTypeError := Some(FileTypeWarning);
      } else {
        fileTypeError := None;
      }
      selected := file;
    }
  }
}
