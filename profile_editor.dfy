/**
 * The profile editor (components/profile/profile-editor.tsx): the initials
 * and avatar shown for a name, and the handlers that update the name and the
 * image through the profile-update endpoint. The endpoint, the file reader
 * and the `URL` parser are parameters.
 */
module ProfileEditor {
  import opened Wrappers
  import opened Text

  const MaxUploadBytes: nat := 2 * 1024 * 1024
  const UpdateFailed: string := "Failed to update profile"
  const NotAnImage: string := "Please upload an image file"
  const TooLarge: string := "Image size should be less than 2MB"
  const NoUrl: string := "Please enter an image URL"
  const BadUrl: string := "Please enter a valid URL"
  const NameUpdated: string := "Profile updated successfully"
  const ImageUpdated: string := "Profile image updated successfully"
  const AvatarService: string := "https://avatar.vercel.sh/"
  /** The message of the TypeError from reading `field` of a missing `data.user`. */
  function NoUser(field: string): string {
    "Cannot read properties of undefined (reading '" + field + "')"
  }

  /** The first character of every non-empty word (`n[0]` of an empty word joins as ''). */
  function Firsts(words: seq<string>): (r: string)
    ensures |r| <= |words|
  {
    if words == [] then ""
    else (if words[0] == "" then "" else [words[0][0]]) + Firsts(words[1..])
  }

  /** `name.split(' ').map(n => n[0]).join('').toUpperCase()` */
  function NameInitials(name: string): string {
    ToUpper(Firsts(Split(name, ' ')))
  }

  /** The initials of a name written as words separated by single spaces: each word's first letter, uppercased. */
  lemma InitialsOfWords(words: seq<string>)
    requires |words| >= 1
    requires forall i :: 0 <= i < |words| ==> words[i] != "" && ' ' !in words[i]
    ensures NameInitials(Join(words, " ")) == ToUpper(seq(|words|, i requires 0 <= i < |words| => words[i][0]))
  {
    SplitJoin(words, ' ');
    FirstsOfWords(words);
  }

  lemma {:induction false} FirstsOfWords(words: seq<string>)
    requires forall i :: 0 <= i < |words| ==> words[i] != ""
    ensures Firsts(words) == seq(|words|, i requires 0 <= i < |words| => words[i][0])
    decreases |words|
  {
    if words != [] {
      FirstsOfWords(words[1..]);
    }
  }

  /** The words that are not empty, in order. */
  function NonEmpty(words: seq<string>): (r: seq<string>)
    ensures forall i :: 0 <= i < |r| ==> r[i] != ""
    ensures forall w :: w in r <==> w in words && w != ""
  {
    if words == [] then []
    else (if words[0] == "" then [] else [words[0]]) + NonEmpty(words[1..])
  }

  lemma {:induction false} FirstsAppend(a: seq<string>, b: seq<string>)
    ensures Firsts(a + b) == Firsts(a) + Firsts(b)
    decreases |a|
  {
    if a == [] {
      assert a + b == b;
    } else {
      assert (a + b)[0] == a[0];
      assert (a + b)[1..] == a[1..] + b;
      FirstsAppend(a[1..], b);
    }
  }

  /** An empty word (from a double, leading or trailing space) adds nothing to the initials. */
  lemma FirstsSkipsEmpty(a: seq<string>, b: seq<string>)
    ensures Firsts(a + [""] + b) == Firsts(a) + Firsts(b)
  {
    assert Firsts([""]) == "" by {
      assert [""][1..] == [];
    }
    FirstsAppend(a, [""]);
    FirstsAppend(a + [""], b);
  }

  lemma {:induction false} FirstsOfNonEmpty(words: seq<string>)
    ensures Firsts(words) == Firsts(NonEmpty(words))
    decreases |words|
  {
    if words != [] {
      FirstsOfNonEmpty(words[1..]);
      var head := if words[0] == "" then [] else [words[0]];
      FirstsAppend(head, NonEmpty(words[1..]));
    }
  }

  /**
   * `initials`: 'U' for an empty name, otherwise the uppercased first letters
   * of the name's non-empty space-separated words.
   */
  function Initials(name: string): (r: string)
    ensures name == "" ==> r == "U"
    ensures name != "" ==>
      var ws := NonEmpty(Split(name, ' '));
      r == ToUpper(seq(|ws|, i requires 0 <= i < |ws| => ws[i][0]))
    ensures name != "" ==> |r| <= |Split(name, ' ')|
  {
    if name == "" then "U"
    else
      FirstsOfNonEmpty(Split(name, ' '));
      FirstsOfWords(NonEmpty(Split(name, ' ')));
      NameInitials(name)
  }

  /** The avatar image: the image if set, else the generated avatar for the initial name or 'user'. */
  function AvatarSrc(image: string, initialName: Option<string>): (r: string)
    ensures image != "" ==> r == image
    ensures image == "" ==> StartsWith(r, AvatarService)
    ensures image == "" && (initialName == None || initialName == Some("")) ==> r == AvatarService + "user"
  {
    if image != "" then image
    else AvatarService + (if initialName.Some? && initialName.value != "" then initialName.value else "user")
  }

  /** handleImageUpload's checks; `None` means the file is read and sent. */
  function UploadError(mimeType: string, size: nat): (r: Option<string>)
    ensures r == None <==> StartsWith(mimeType, "image/") && size <= MaxUploadBytes
    ensures !StartsWith(mimeType, "image/") ==> r == Some(NotAnImage)
    ensures StartsWith(mimeType, "image/") && size > MaxUploadBytes ==> r == Some(TooLarge)
  {
    if !StartsWith(mimeType, "image/") then Some(NotAnImage)
    else if size > MaxUploadBytes then Some(TooLarge)
    else None
  }

  /**
   * The endpoint's reply as the handlers read it: `response.ok`, `data.error`
   * ('' when absent) and the updated field of `data.user` (`None` without a user).
   */
  datatype Reply = Reply(ok: bool, error: string, updated: Option<string>)

  datatype Toast = ToastSuccess(message: string) | ToastError(message: string)

  /**
   * The try block of both update handlers: a reply that is not ok, or whose
   * JSON could not be read (`Failure`), ends in the thrown message; `field` is
   * the member of `data.user` the handler reads ('name' or 'image').
   */
  function Outcome(reply: Result<Reply>, field: string): (r: Result<string>)
    ensures reply.Success? && !reply.value.ok ==>
      r == Failure(if reply.value.error != "" then reply.value.error else UpdateFailed)
    ensures reply.Success? && reply.value.ok && reply.value.updated.None? ==> r == Failure(NoUser(field))
    ensures reply.Success? && reply.value.ok && reply.value.updated.Some? ==> r == Success(reply.value.updated.value)
    ensures reply.Failure? ==> r == Failure(reply.error)
    ensures r.Success? <==> reply.Success? && reply.value.ok && reply.value.updated.Some?
  {
    match reply
    case Failure(e) => Failure(e)
    case Success(Reply(ok, error, updated)) =>
      if !ok then Failure(if error != "" then error else UpdateFailed)
      else if updated.None? then Failure(NoUser(field))
      else Success(updated.value)
  }

  /** The reply reached `toast.success`: its JSON was read and `response.ok` held. */
  predicate Acknowledged(reply: Result<Reply>) {
    reply.Success? && reply.value.ok
  }

  datatype View = View(name: string, image: string, nameDialogOpen: bool, imageDialogOpen: bool, imageUrl: string, isLoading: bool)

  class Editor {
    const initialName: Option<string>
    var name: string
    var image: string
    var isNameDialogOpen: bool
    var isImageDialogOpen: bool
    var imageUrl: string
    var isLoading: bool

    function State(): View
      reads this
    {
      View(name, image, isNameDialogOpen, isImageDialogOpen, imageUrl, isLoading)
    }

    /** `useState(initialName || '')`, `useState(initialImage || '')`, every flag off. */
    constructor (initialName: Option<string>, initialImage: Option<string>)
      ensures this.initialName == initialName
      ensures State() == View(initialName.GetOr(""), initialImage.GetOr(""), false, false, "", false)
    {
      this.initialName := initialName;
      name := initialName.GetOr("");
      image := initialImage.GetOr("");
      isNameDialogOpen, isImageDialogOpen := false, false;
      imageUrl := "";
      isLoading := false;
    }

    /** The name input's onChange. */
    method EditName(value: string)
      modifies this
      ensures State() == old(State()).(name := value)
    {
      name := value;
    }

    /** The URL input's onChange. */
    method EditImageUrl(value: string)
      modifies this
      ensures State() == old(State()).(imageUrl := value)
    {
      imageUrl := value;
    }

    /**
     * handleNameUpdate. An unchanged name (`name === initialName`; a null
     * initial name never equals) closes the dialog and sends nothing.
     * Otherwise the name is sent with the loading flag on, and afterwards the
     * flag is off. An ok reply shows the success toast first; then, with the
     * server's name, the name is set and the dialog closes. When the reply
     * fails, or has no user to read, the error toast follows and nothing else
     * changes.
     */
    method NameUpdate(server: string -> Result<Reply>) returns (sent: Option<string>, loadingWhileSent: bool, toasts: seq<Toast>)
      modifies this
      ensures initialName == Some(old(name)) ==>
        sent == None && toasts == [] && State() == old(State()).(nameDialogOpen := false)
      ensures initialName != Some(old(name)) ==> sent == Some(old(name)) && loadingWhileSent
      ensures initialName != Some(old(name)) && Outcome(server(old(name)), "name").Success? ==>
        toasts == [ToastSuccess(NameUpdated)] && State() == old(State()).(name := Outcome(server(old(name)), "name").value, nameDialogOpen := false, isLoading := false)
      ensures initialName != Some(old(name)) && Outcome(server(old(name)), "name").Failure? ==>
        toasts == (if Acknowledged(server(old(name))) then [ToastSuccess(NameUpdated)] else []) + [ToastError(Outcome(server(old(name)), "name").error)]
        && State() == old(State()).(isLoading := false)
    {
      if initialName == Some(name) {
        isNameDialogOpen := false;
        return None, false, [];
      }
      isLoading := true;
      sent := Some(name);
      loadingWhileSent := isLoading;
      var reply := server(name);
      var outcome := Outcome(reply, "name");
      toasts := if Acknowledged(reply) then [ToastSuccess(NameUpdated)] else [];
      if outcome.Success? {
        name := outcome.value;
        isNameDialogOpen := false;
      } else {
        toasts := toasts + [ToastError(outcome.error)];
      }
      isLoading := false;
    }

    /** handleImageUpdate: as the name update, for the image, with no unchanged-value shortcut. */
    method ImageUpdate(newImage: string, server: string -> Result<Reply>) returns (loadingWhileSent: bool, toasts: seq<Toast>)
      modifies this
      ensures loadingWhileSent
      ensures Outcome(server(newImage), "image").Success? ==>
        toasts == [ToastSuccess(ImageUpdated)] && State() == old(State()).(image := Outcome(server(newImage), "image").value, imageDialogOpen := false, isLoading := false)
      ensures Outcome(server(newImage), "image").Failure? ==>
        toasts == (if Acknowledged(server(newImage)) then [ToastSuccess(ImageUpdated)] else []) + [ToastError(Outcome(server(newImage), "image").error)]
        && State() == old(State()).(isLoading := false)
    {
      isLoading := true;
      loadingWhileSent := isLoading;
      var reply := server(newImage);
      var outcome := Outcome(reply, "image");
      toasts := if Acknowledged(reply) then [ToastSuccess(ImageUpdated)] else [];
      if outcome.Success? {
        image := outcome.value;
        isImageDialogOpen := false;
      } else {
        toasts := toasts + [ToastError(outcome.error)];
      }
      isLoading := false;
    }

    /**
     * handleImageUrlSubmit. An empty URL is refused before `new URL` (the
     * parameter `isUrl`) is tried; an unparsable one is refused too; a valid
     * one is sent as the new image.
     */
    method ImageUrlSubmit(isUrl: string -> bool, server: string -> Result<Reply>) returns (parsed: bool, sent: Option<string>, toasts: seq<Toast>)
      modifies this
      ensures old(imageUrl) == "" ==> !parsed && sent == None && toasts == [ToastError(NoUrl)] && State() == old(State())
      ensures old(imageUrl) != "" ==> parsed
      ensures old(imageUrl) != "" && !isUrl(old(imageUrl)) ==> sent == None && toasts == [ToastError(BadUrl)] && State() == old(State())
      ensures old(imageUrl) != "" && isUrl(old(imageUrl)) ==> sent == Some(old(imageUrl))
      ensures old(imageUrl) != "" && isUrl(old(imageUrl)) && Outcome(server(old(imageUrl)), "image").Success? ==>
        toasts == [ToastSuccess(ImageUpdated)]
        && State() == old(State()).(image := Outcome(server(old(imageUrl)), "image").value, imageDialogOpen := false, isLoading := false)
      ensures old(imageUrl) != "" && isUrl(old(imageUrl)) && Outcome(server(old(imageUrl)), "image").Failure? ==>
        toasts == (if Acknowledged(server(old(imageUrl))) then [ToastSuccess(ImageUpdated)] else []) + [ToastError(Outcome(server(old(imageUrl)), "image").error)]
        && State() == old(State()).(isLoading := false)
    {
      if imageUrl == "" {
        return false, None, [ToastError(NoUrl)];
      }
      parsed := true;
      if !isUrl(imageUrl) {
        return parsed, None, [ToastError(BadUrl)];
      }
      sent := Some(imageUrl);
      var _, shown := ImageUpdate(imageUrl, server);
      toasts := shown;
    }
  }
}
