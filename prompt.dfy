/**
 * `RagPrompt`: splits the retrieved context into image paths and text, and formats the
 * prompt sent to a chat model.
 */
module Prompt {

  import opened Wrappers
  import opened Strings

  /** A retrieved context document: its `data_type` and its `content` (text, or an image path or URL). */
  datatype ContextDoc = ContextDoc(dataType: string, content: string)

  datatype PromptError = ImageNotFound(path: string) | DownloadFailed(url: string)

  predicate IsImage(d: ContextDoc) { d.dataType == "image" }

  predicate IsRemote(d: ContextDoc) { StartsWith(d.content, "http") }

  /**
   * The image can be used: a remote image was downloaded (`downloads` maps each URL that
   * could be fetched to the temporary file it was saved in), a local path exists
   * (`existing` is the set of existing paths). Text documents always can.
   */
  predicate Usable(d: ContextDoc, existing: set<string>, downloads: map<string, string>)
  {
    !IsImage(d) || (if IsRemote(d) then d.content in downloads else d.content in existing)
  }

  predicate AllUsable(context: seq<ContextDoc>, existing: set<string>, downloads: map<string, string>)
  {
    forall i :: 0 <= i < |context| ==> Usable(context[i], existing, downloads)
  }

  /** The error raised for an unusable image. */
  function ErrorFor(d: ContextDoc): PromptError
  {
    if IsRemote(d) then DownloadFailed(d.content) else ImageNotFound(d.content)
  }

  /** What one image adds to `images_list`: its content, then the temporary file or, for a local path, the path again. */
  function ImageEntries(d: ContextDoc, downloads: map<string, string>): seq<string>
    requires IsRemote(d) ==> d.content in downloads
  {
    if IsRemote(d) then [d.content, downloads[d.content]] else [d.content, d.content]
  }

  /** `doc_list`: the content of every non-image document, in context order. */
  function DocList(context: seq<ContextDoc>): seq<string>
  {
    if |context| == 0 then []
    else DocList(context[..|context| - 1]) + (if IsImage(context[|context| - 1]) then [] else [context[|context| - 1].content])
  }

  /** `images_list`: two entries per image document, in context order. */
  function ImagesList(context: seq<ContextDoc>, existing: set<string>, downloads: map<string, string>): seq<string>
    requires AllUsable(context, existing, downloads)
  {
    if |context| == 0 then []
    else
      var last := context[|context| - 1];
      ImagesList(context[..|context| - 1], existing, downloads) + (if IsImage(last) then ImageEntries(last, downloads) else [])
  }

  function CountImages(context: seq<ContextDoc>): nat
  {
    if |context| == 0 then 0
    else CountImages(context[..|context| - 1]) + (if IsImage(context[|context| - 1]) then 1 else 0)
  }

  /** Every document lands in exactly one list: text in `doc_list`, each image twice in `images_list`. */
  lemma {:induction false} PartitionSizes(context: seq<ContextDoc>, existing: set<string>, downloads: map<string, string>)
    requires AllUsable(context, existing, downloads)
    ensures |DocList(context)| + CountImages(context) == |context|
    ensures |ImagesList(context, existing, downloads)| == 2 * CountImages(context)
  {
    if |context| > 0 {
      PartitionSizes(context[..|context| - 1], existing, downloads);
    }
  }

  /** The image list is empty exactly when no context document is an image. */
  lemma {:induction false} ImagesIffImageDoc(context: seq<ContextDoc>, existing: set<string>, downloads: map<string, string>)
    requires AllUsable(context, existing, downloads)
    ensures |ImagesList(context, existing, downloads)| > 0 <==> exists i :: 0 <= i < |context| && IsImage(context[i])
  {
    PartitionSizes(context, existing, downloads);
    CountImagesPositive(context);
  }

  lemma {:induction false} CountImagesPositive(context: seq<ContextDoc>)
    ensures CountImages(context) > 0 <==> exists i :: 0 <= i < |context| && IsImage(context[i])
  {
    if |context| > 0 {
      var init := context[..|context| - 1];
      CountImagesPositive(init);
      if exists i :: 0 <= i < |init| && IsImage(init[i]) {
        var i :| 0 <= i < |init| && IsImage(init[i]);
        assert IsImage(context[i]);
      }
      if exists i :: 0 <= i < |context| && IsImage(context[i]) {
        var i :| 0 <= i < |context| && IsImage(context[i]);
        if i < |context| - 1 {
          assert IsImage(init[i]);
        }
      }
    }
  }

  /** The prompt string, with or without the mention of images. */
  function PromptText(query: string, docs: seq<string>, withImages: bool): (r: string)
    ensures StartsWith(r, "Using this data: " + Join(" ", docs))
    ensures |query| <= |r| && r[|r| - |query|..] == query
  {
    if withImages then "Using this data: " + Join(" ", docs) + " and the images. Respond to this prompt: " + query
    else "Using this data: " + Join(" ", docs) + ". Respond to this prompt: " + query
  }

  /** Both forms open with the data and end with the query; the image form is the longer by the 15 characters of " and the images". */
  lemma PromptShape(query: string, docs: seq<string>)
    ensures StartsWith(PromptText(query, docs, true), "Using this data: " + Join(" ", docs))
    ensures StartsWith(PromptText(query, docs, false), "Using this data: " + Join(" ", docs))
    ensures PromptText(query, docs, true)[|PromptText(query, docs, true)| - |query|..] == query
    ensures PromptText(query, docs, false)[|PromptText(query, docs, false)| - |query|..] == query
    ensures |PromptText(query, docs, true)| == |PromptText(query, docs, false)| + 15
  {
    var j := "Using this data: " + Join(" ", docs);
    assert PromptText(query, docs, true) == j + (" and the images. Respond to this prompt: " + query);
    assert PromptText(query, docs, false) == j + (". Respond to this prompt: " + query);
  }

  datatype Parts = Parts(images: seq<string>, docs: seq<string>)

  /**
   * The loop of the constructor: each image document appends its content and then either
   * its temporary file or, after the existence check, its path again; each other
   * document appends its content. Stops at the first unusable image.
   */
  method Partition(context: seq<ContextDoc>, existing: set<string>, downloads: map<string, string>)
    returns (r: Result<Parts, PromptError>)
    ensures r.Ok? <==> AllUsable(context, existing, downloads)
    ensures r.Ok? ==> r.value == Parts(ImagesList(context, existing, downloads), DocList(context))
    ensures r.Err? ==> exists i :: (0 <= i < |context| && !Usable(context[i], existing, downloads) &&
      AllUsable(context[..i], existing, downloads) && r.error == ErrorFor(context[i]))
  {
    var imagesList: seq<string> := [];
    var docList: seq<string> := [];
    var i := 0;
    while i < |context|
      invariant 0 <= i <= |context|
      invariant AllUsable(context[..i], existing, downloads)
      invariant imagesList == ImagesList(context[..i], existing, downloads)
      invariant docList == DocList(context[..i])
    {
      var doc := context[i];
      assert context[..i + 1][..i] == context[..i];
      if doc.dataType == "image" {
        imagesList := imagesList + [doc.content];
        if StartsWith(doc.content, "http") {
          if doc.content !in downloads {
            return Err(DownloadFailed(doc.content));
          }
          imagesList := imagesList + [downloads[doc.content]];
        } else {
          if doc.content in existing {
            imagesList := imagesList + [doc.content];
          } else {
            return Err(ImageNotFound(doc.content));
          }
        }
      } else {
        docList := docList + [doc.content];
      }
      i := i + 1;
    }
    assert context[..i] == context;
    r := Ok(Parts(imagesList, docList));
  }

  class RagPrompt {
    const imagesList: seq<string>
    const docList: seq<string>
    const contextDoc: seq<ContextDoc>
    const prompt: string

    /** Stores the partition, the context as given and the prompt, which mentions images exactly when there are some. */
    constructor (query: string, context: seq<ContextDoc>, parts: Parts)
      ensures imagesList == parts.images && docList == parts.docs && contextDoc == context
      ensures prompt == PromptText(query, parts.docs, |parts.images| > 0)
    {
      imagesList := parts.images;
      docList := parts.docs;
      contextDoc := context;
      prompt := PromptText(query, parts.docs, |parts.images| > 0);
    }
  }

  /** `RagPrompt(query, context)`, or the `ValueError` its constructor raises. */
  method NewRagPrompt(query: string, context: seq<ContextDoc>, existing: set<string>, downloads: map<string, string>)
    returns (r: Result<RagPrompt, PromptError>)
    ensures r.Ok? <==> AllUsable(context, existing, downloads)
    ensures r.Ok? ==> fresh(r.value)
    ensures r.Ok? ==> r.value.imagesList == ImagesList(context, existing, downloads) && r.value.docList == DocList(context)
    ensures r.Ok? ==> r.value.contextDoc == context
    ensures r.Ok? ==> r.value.prompt == PromptText(query, DocList(context), exists i :: 0 <= i < |context| && IsImage(context[i]))
  {
    var parts := Partition(context, existing, downloads);
    if parts.Err? {
      return Err(parts.error);
    }
    ImagesIffImageDoc(context, existing, downloads);
    var p := new RagPrompt(query, context, parts.value);
    r := Ok(p);
  }
}
