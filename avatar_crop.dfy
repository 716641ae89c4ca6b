/**
 * The avatar crop dialog (components/profile/avatar-crop-dialog.tsx): the
 * dialog's state variables and the handlers that change them. The cropper
 * widget and the slider are the sources of crop positions, zoom levels and
 * crop areas; cropping the image and reading the file are parameters.
 */
module AvatarCrop {
  import opened Wrappers
  import opened Text

  const MaxImageBytes: nat := 5 * 1024 * 1024
  const NotAnImage: string := "Please select an image file"
  const TooLarge: string := "Image size should be less than 5MB"
  const AvatarUpdated: string := "Avatar updated successfully"
  const CropFailed: string := "Failed to crop image"

  /** The pixel area the cropper reports. */
  datatype Area = Area(x: real, y: real, width: real, height: real)

  /** The selected file's MIME type and size in bytes. */
  datatype FileInfo = FileInfo(mimeType: string, size: nat)

  /** What `getCroppedImg` is called with. */
  datatype CropRequest = CropRequest(imageSrc: string, area: Area, rotation: int)

  datatype Toast = ToastSuccess(message: string) | ToastError(message: string)

  datatype View = View(imageSrc: string, cropX: real, cropY: real, zoom: real, rotation: int, area: Option<Area>, isLoading: bool)

  const Initial: View := View("", 0.0, 0.0, 1.0, 0, None, false)

  /** The angles the rotate button can reach. */
  predicate RightAngle(r: int) {
    r == 0 || r == 90 || r == 180 || r == 270
  }

  /** `(prev + 90) % 360` (no negative operand arises, so truncation and Euclidean remainder agree). */
  function NextRotation(r: int): (n: int)
    requires r >= 0
    ensures 0 <= n < 360
    ensures RightAngle(r) ==> RightAngle(n)
  {
    (r + 90) % 360
  }

  /** Rotating four times returns to the starting angle. */
  lemma FourRotations(r: int)
    requires RightAngle(r)
    ensures NextRotation(NextRotation(NextRotation(NextRotation(r)))) == r
  {
  }

  /**
   * handleFileSelect's checks; `None` means the file is read. Exactly 5 MB
   * is accepted.
   */
  function FileError(file: FileInfo): (r: Option<string>)
    ensures r == None <==> StartsWith(file.mimeType, "image/") && file.size <= MaxImageBytes
    ensures !StartsWith(file.mimeType, "image/") ==> r == Some(NotAnImage)
    ensures StartsWith(file.mimeType, "image/") && file.size > MaxImageBytes ==> r == Some(TooLarge)
  {
    if !StartsWith(file.mimeType, "image/") then Some(NotAnImage)
    else if file.size > MaxImageBytes then Some(TooLarge)
    else None
  }

  class CropDialog {
    var imageSrc: string
    var cropX: real
    var cropY: real
    var zoom: real
    var rotation: int
    var croppedAreaPixels: Option<Area>
    var isLoading: bool

    function State(): View
      reads this
    {
      View(imageSrc, cropX, cropY, zoom, rotation, croppedAreaPixels, isLoading)
    }

    /** Only the rotate button and the resets change the rotation, so it stays a right angle. */
    predicate Valid()
      reads this
    {
      RightAngle(rotation)
    }

    constructor ()
      ensures State() == Initial && Valid()
    {
      imageSrc := "";
      cropX, cropY := 0.0, 0.0;
      zoom := 1.0;
      rotation := 0;
      croppedAreaPixels := None;
      isLoading := false;
    }

    /** handleRotate */
    method Rotate()
      requires Valid()
      modifies this
      ensures Valid()
      ensures State() == old(State()).(rotation := NextRotation(old(rotation)))
    {
      rotation := (rotation + 90) % 360;
    }

    /** resetCrop: crop back to (0, 0), zoom to 1, rotation to 0. */
    method ResetCrop()
      modifies this
      ensures Valid()
      ensures State() == old(State()).(cropX := 0.0, cropY := 0.0, zoom := 1.0, rotation := 0)
    {
      cropX, cropY := 0.0, 0.0;
      zoom := 1.0;
      rotation := 0;
    }

    /** onCropChange from the cropper. */
    method SetCrop(x: real, y: real)
      modifies this
      ensures State() == old(State()).(cropX := x, cropY := y)
    {
      cropX, cropY := x, y;
    }

    /** onZoomChange from the cropper, or the slider. */
    method SetZoom(z: real)
      modifies this
      ensures State() == old(State()).(zoom := z)
    {
      zoom := z;
    }

    /** onCropComplete */
    method CropComplete(a: Area)
      modifies this
      ensures State() == old(State()).(area := Some(a))
    {
      croppedAreaPixels := Some(a);
    }

    /** The FileReader's `onload` for an accepted file. */
    method ImageLoaded(dataUrl: string)
      modifies this
      ensures State() == old(State()).(imageSrc := dataUrl)
    {
      imageSrc := dataUrl;
    }

    /** The 'Change Image' button. */
    method ChangeImage()
      modifies this
      ensures State() == old(State()).(imageSrc := "")
    {
      imageSrc := "";
    }

    /**
     * handleCropImage. Without an image or a crop area nothing happens.
     * Otherwise `getCroppedImg` (the parameter `crop`) is called with the image,
     * the area and the rotation; on success the cropped image is handed over
     * with the success toast and everything returns to its initial value, on
     * failure the error toast is shown and only the loading flag is back to
     * false.
     */
    method CropImage(crop: CropRequest -> Result<string>) returns (request: Option<CropRequest>, cropped: Option<string>, toasts: seq<Toast>)
      requires Valid()
      modifies this
      ensures Valid()
      ensures old(imageSrc) == "" || old(croppedAreaPixels) == None ==>
        request == None && cropped == None && toasts == [] && State() == old(State())
      ensures old(imageSrc) != "" && old(croppedAreaPixels) != None ==>
        && request == Some(CropRequest(old(imageSrc), old(croppedAreaPixels).value, old(rotation)))
        && (crop(request.value).Success? ==>
              cropped == Some(crop(request.value).value) && toasts == [ToastSuccess(AvatarUpdated)] && State() == Initial)
        && (crop(request.value).Failure? ==>
              cropped == None && toasts == [ToastError(CropFailed)] && State() == old(State()).(isLoading := false))
    {
      if imageSrc == "" || croppedAreaPixels == None {
        return None, None, [];
      }
      isLoading := true;
      var req := CropRequest(imageSrc, croppedAreaPixels.value, rotation);
      request := Some(req);
      var outcome := crop(req);
      if outcome.Success? {
        cropped := Some(outcome.value);
        toasts := [ToastSuccess(AvatarUpdated)];
        imageSrc := "";
        cropX, cropY := 0.0, 0.0;
        zoom := 1.0;
        rotation := 0;
        croppedAreaPixels := None;
      } else {
        cropped := None;
        toasts := [ToastError(CropFailed)];
      }
      isLoading := false;
    }
  }
}
