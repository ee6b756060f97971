/**
 * The image list edits of src/components/ImageUpload.tsx: the capped append
 * each loaded file triggers, removal by id and the alt-text update. Each
 * computes the new list handed to `onUpdate`.
 */
module ImageUpload {
  import opened Wrappers
  import opened Types
  import Seqs
  import Text

  /** The `maxImages` property's default. */
  const DefaultMaxImages := 5

  /** A picked file: its MIME type and name, the data URL the reader produced and the generated id. */
  datatype SelectedFile = SelectedFile(mimeType: string, name: string, dataUrl: string, newId: Id)

  /** The image a loaded file becomes; its alt text is the file name. */
  function ImageOf(f: SelectedFile): (r: Image)
    ensures r.id == f.newId && r.url == f.dataUrl
    ensures r.alt == f.name && r.name == f.name
  {
    Image(f.newId, f.dataUrl, f.name, f.name)
  }

  /** The list after one capped append: the image is added only while the count is below the cap. */
  function AppendUnderCap(images: seq<Image>, img: Image, maxImages: int): (r: seq<Image>)
    ensures |images| < maxImages ==> r == images + [img]
    ensures |images| >= maxImages ==> r == images
    ensures |images| <= maxImages ==> |r| <= maxImages
  {
    if |images| < maxImages then images + [img] else images
  }

  /**
   * With the default cap, a list of five images takes no further file, while
   * a list of four still takes any image file.
   */
  lemma DefaultCapIsFive(images: seq<Image>, file: SelectedFile)
    requires |images| == 5
    ensures OnFileLoaded(images, file, DefaultMaxImages).None?
    ensures OnFileLoaded(images[..4], file, DefaultMaxImages).Some? <==> IsImageFile(file)
  {
  }

  /** Capped appends one after another. */
  function AppendAllUnderCap(images: seq<Image>, imgs: seq<Image>, maxImages: int): seq<Image>
    decreases |imgs|
  {
    if imgs == [] then images
    else AppendAllUnderCap(AppendUnderCap(images, imgs[0], maxImages), imgs[1..], maxImages)
  }

  /** However many images are appended, a list within the cap stays within it and keeps its prefix. */
  lemma {:induction false} AppendsStayUnderCap(images: seq<Image>, imgs: seq<Image>, maxImages: int)
    requires |images| <= maxImages
    ensures |images| <= |AppendAllUnderCap(images, imgs, maxImages)| <= maxImages
    ensures AppendAllUnderCap(images, imgs, maxImages)[..|images|] == images
    decreases |imgs|
  {
    if imgs != [] {
      var next := AppendUnderCap(images, imgs[0], maxImages);
      AppendsStayUnderCap(next, imgs[1..], maxImages);
      var r := AppendAllUnderCap(next, imgs[1..], maxImages);
      assert next[..|images|] == images;
      assert r[..|images|] == r[..|next|][..|images|];
    }
  }

  /**
   * `reader.onload` for one file: the list handed to `onUpdate`, or `None`
   * when the file is not an image or the list is already at the cap.
   */
  function OnFileLoaded(images: seq<Image>, file: SelectedFile, maxImages: int): (r: Option<seq<Image>>)
    ensures r.Some? <==> Text.StartsWith(file.mimeType, "image/") && |images| < maxImages
    ensures r.Some? ==> r.value == images + [ImageOf(file)] && |r.value| <= maxImages
  {
    if Text.StartsWith(file.mimeType, "image/") && |images| < maxImages
    then Some(AppendUnderCap(images, ImageOf(file), maxImages))
    else None
  }

  /** The `file.type.startsWith('image/')` test. */
  predicate IsImageFile(f: SelectedFile) {
    Text.StartsWith(f.mimeType, "image/")
  }

  /**
   * The `onUpdate` payloads of the files, each computed from the same
   * `images` list: below the cap, one payload per image file, in order, each
   * `images` plus that file's image; at the cap, none.
   */
  function Payloads(images: seq<Image>, files: seq<SelectedFile>, maxImages: int): (r: seq<seq<Image>>)
    ensures |r| <= |files|
    ensures forall p :: p in r ==> |p| == |images| + 1 && p[..|images|] == images && |p| <= maxImages
    ensures |images| >= maxImages ==> r == []
    ensures |images| < maxImages ==>
      var imageFiles := Seqs.Filter(files, IsImageFile);
      |r| == |imageFiles| && forall k :: 0 <= k < |r| ==> r[k] == images + [ImageOf(imageFiles[k])]
  {
    if files == [] then []
    else
      var rest := Payloads(images, files[1..], maxImages);
      match OnFileLoaded(images, files[0], maxImages)
      case None => rest
      case Some(p) => assert p[..|images|] == images; [p] + rest
  }

  /**
   * `handleFileSelect`: a null file list changes nothing; otherwise each image
   * file, once loaded, hands `images` plus that one image to `onUpdate`.
   */
  function HandleFileSelect(images: seq<Image>, files: Option<seq<SelectedFile>>, maxImages: int): (r: seq<seq<Image>>)
    ensures files.None? ==> r == []
    ensures files.Some? ==> |r| <= |files.value|
    ensures forall p :: p in r ==> |p| == |images| + 1 && p[..|images|] == images && |p| <= maxImages
    ensures |images| >= maxImages ==> r == []
    ensures files.Some? && |images| < maxImages ==>
      var imageFiles := Seqs.Filter(files.value, IsImageFile);
      |r| == |imageFiles| && forall k :: 0 <= k < |r| ==> r[k] == images + [ImageOf(imageFiles[k])]
  {
    match files
    case None => []
    case Some(fs) => Payloads(images, fs, maxImages)
  }

  /** `removeImage`: drops every image with the id, the rest keeping their order. */
  function RemoveImage(images: seq<Image>, imageId: Id): (r: seq<Image>)
    ensures forall img :: img in r ==> img.id != imageId && img in images
    ensures forall img :: img in images && img.id != imageId ==> img in r
    ensures Seqs.IsSubsequence(r, images)
    ensures (forall img :: img in images ==> img.id != imageId) ==> r == images
    ensures forall img :: multiset(r)[img] == if img.id != imageId then multiset(images)[img] else 0
  {
    var keep := (img: Image) => img.id != imageId;
    Seqs.FilterCount(images, keep);
    Seqs.FilterMembers(images, keep);
    Seqs.FilterSubsequence(images, keep);
    Seqs.FilterKeepsAll(images, keep);
    Seqs.Filter(images, keep)
  }

  /** `updateImageAlt`: sets the alt text of the images with the id; nothing else changes. */
  function UpdateImageAlt(images: seq<Image>, imageId: Id, alt: string): (r: seq<Image>)
    ensures |r| == |images|
    ensures forall i :: 0 <= i < |images| ==>
      r[i].id == images[i].id && r[i].url == images[i].url && r[i].name == images[i].name
    ensures forall i :: 0 <= i < |images| ==>
      r[i].alt == if images[i].id == imageId then alt else images[i].alt
  {
    Seqs.MapWhere(images, (img: Image) => img.id == imageId, (img: Image) => img.(alt := alt))
  }
}
