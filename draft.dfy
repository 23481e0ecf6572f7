/** The listing-creation draft: the state the creation modal keeps while a
    listing is being prepared (one staged image, one AI result tagged with
    the operation that produced it, and a processing flag), and the events
    that change it. The AI service is outside the model: a call is issued by
    StartAi and its settlement arrives later, with whatever outcome the
    service produced, through SettleAi. Between the two the user can still
    clear the image or stage a new one. */
module Draft {
  import opened Types

  /** Which AI operation produced the draft's result. */
  datatype AiKind = Edit | Video

  /** How a service call settled: it returned a string, returned null, or threw. */
  datatype Outcome = Returned(value: string) | ReturnedNull | Threw

  /** A service call as issued: the operation, the staged image sent, and the
      fixed instruction that goes with it. */
  datatype AiCall = AiCall(kind: AiKind, image: string, instruction: string)

  /** How the file picker's read finished: no file was chosen, the file was
      read as a data URI, or the read failed and left a null result. */
  datatype FileRead = NoFile | Loaded(dataUri: string) | ReadFailed

  /** What the upload area of the modal shows. */
  datatype Preview = UploadPrompt | Picture(src: string) | Player(src: string)

  /** The instruction each operation sends with the image. */
  function Instruction(kind: AiKind): (text: string)
    ensures text != ""
  {
    match kind
    case Edit => "Make this image look more professional and vibrant for a high-end listing"
    case Video => "A smooth cinematic drone shot moving around this property/vehicle"
  }

  /** JavaScript truthiness of a `string | null`: null and "" are both false. */
  predicate Truthy(s: Option<string>)
  {
    s.Some? && s.value != ""
  }

  /** The outcome is one the handlers keep (`if (result)`). */
  predicate Delivered(o: Outcome)
  {
    o.Returned? && o.value != ""
  }

  class CreationDraft {
    var image: Option<string>
    var isProcessing: bool
    var aiResult: Option<string>
    var aiType: Option<AiKind>
    /** The service calls issued and not yet settled. */
    ghost var pending: multiset<AiKind>

    /** The result is always tagged with the operation that produced it, and
        a kept result is never empty. */
    ghost predicate Valid()
      reads this
    {
      (aiResult.Some? <==> aiType.Some?) && (aiResult.Some? ==> aiResult.value != "")
    }

    /** At most one call is outstanding, and the processing flag is raised
        exactly while it is. */
    ghost predicate OneAtATime()
      reads this
    {
      |pending| <= 1 && (isProcessing <==> |pending| == 1)
    }

    /** The two AI buttons are offered only with a staged image and no call
        in flight. */
    predicate ToolsVisible()
      reads this
    {
      Truthy(image) && !isProcessing
    }

    /** The upload area: the upload prompt without a staged image (where the
        file picker is offered), otherwise the preview with its clear button.
        A video player exactly when the result is a video; otherwise a picture
        of the result if there is one, else of the staged image. */
    function Preview(): (p: Preview)
      reads this
      ensures p.UploadPrompt? <==> !Truthy(image)
      ensures p.Player? <==> Truthy(image) && aiType == Some(Video) && Truthy(aiResult)
      ensures p.Player? ==> p.src == aiResult.value
      ensures p.Picture? ==> p.src == if Truthy(aiResult) then aiResult.value else image.value
    {
      if !Truthy(image) then UploadPrompt
      else if aiType == Some(Video) && Truthy(aiResult) then Player(aiResult.value)
      else Picture(if Truthy(aiResult) then aiResult.value else image.value)
    }

    /** A fresh draft, as the modal starts when it opens. */
    constructor ()
      ensures image == None && !isProcessing && aiResult == None && aiType == None
      ensures pending == multiset{}
      ensures Valid() && OneAtATime()
    {
      image := None;
      isProcessing := false;
      aiResult := None;
      aiType := None;
      pending := multiset{};
    }

    /** The file picker settled. Without a chosen file nothing happens; once
        the read ends, its result becomes the staged image, which is null when
        the read failed. Only the staged image changes. */
    method HandleImageUpload(file: FileRead)
      requires Valid()
      modifies this
      ensures file.NoFile? ==> image == old(image)
      ensures file.Loaded? ==> image == Some(file.dataUri)
      ensures file.ReadFailed? ==> image == None
      ensures isProcessing == old(isProcessing) && aiResult == old(aiResult) && aiType == old(aiType)
      ensures pending == old(pending)
      ensures Valid()
      ensures old(OneAtATime()) ==> OneAtATime()
    {
      match file
      case NoFile =>
      case Loaded(dataUri) => image := Some(dataUri);
      case ReadFailed => image := None;
    }

    /** The synchronous part of an AI button's handler, up to the service
        call: without a staged image nothing happens and nothing is called;
        otherwise the flag is raised and the staged image goes out with the
        operation's instruction. */
    method StartAi(kind: AiKind) returns (call: Option<AiCall>)
      requires Valid()
      modifies this
      ensures call.None? <==> !Truthy(old(image))
      ensures call.None? ==> isProcessing == old(isProcessing) && pending == old(pending)
      ensures call.Some? ==> (call.value == AiCall(kind, old(image).value, Instruction(kind))
                              && isProcessing && pending == old(pending) + multiset{kind})
      ensures image == old(image) && aiResult == old(aiResult) && aiType == old(aiType)
      ensures Valid()
      ensures old(OneAtATime()) && (old(ToolsVisible()) || call.None?) ==> OneAtATime()
    {
      if !Truthy(image) {
        return None;
      }
      isProcessing := true;
      pending := pending + multiset{kind};
      call := Some(AiCall(kind, image.value, Instruction(kind)));
    }

    /** The rest of the handler, once the call of operation `kind` settles:
        a delivered result replaces the draft's result and tags it with
        `kind`; null or a thrown error leave it alone; either way the flag
        is lowered. The staged image is never touched. */
    method SettleAi(kind: AiKind, outcome: Outcome)
      requires Valid()
      requires kind in pending
      modifies this
      ensures !isProcessing
      ensures image == old(image)
      ensures Delivered(outcome) ==> aiResult == Some(outcome.value) && aiType == Some(kind)
      ensures !Delivered(outcome) ==> aiResult == old(aiResult) && aiType == old(aiType)
      ensures pending == old(pending) - multiset{kind}
      ensures Valid()
      ensures old(OneAtATime()) ==> OneAtATime() && pending == multiset{}
    {
      if Delivered(outcome) {
        aiResult := Some(outcome.value);
        aiType := Some(kind);
      }
      isProcessing := false;
      pending := pending - multiset{kind};
    }

    /** The clear button: only the staged image is dropped; the AI result and
        its tag stay. */
    method ClearImage()
      requires Valid()
      modifies this
      ensures image == None
      ensures isProcessing == old(isProcessing) && aiResult == old(aiResult) && aiType == old(aiType)
      ensures pending == old(pending)
      ensures Valid()
      ensures old(OneAtATime()) ==> OneAtATime()
    {
      image := None;
    }
  }

  /** With a staged image, a kept result is shown in the form its tag names:
      a video result always in the player and never as a picture, an edited
      image always as a picture and never in the player. */
  lemma PreviewFollowsTag(d: CreationDraft)
    requires d.Valid() && Truthy(d.image) && d.aiResult.Some?
    ensures d.Preview() == Player(d.aiResult.value) <==> d.aiType == Some(Video)
    ensures d.Preview() == Picture(d.aiResult.value) <==> d.aiType == Some(Edit)
  {
    assert Truthy(d.aiResult);
    match d.aiType.value
    case Edit =>
    case Video =>
  }

  /** While the draft keeps one call at a time, the buttons are offered only
      when nothing is outstanding, so pressing one cannot start a second call. */
  lemma ToolsOnlyWhenIdle(d: CreationDraft)
    requires d.OneAtATime()
    ensures d.ToolsVisible() ==> d.pending == multiset{}
  {
  }

  /** Pressing an AI button in a fresh draft issues no call and changes
      nothing. */
  method NoImageNoCall(kind: AiKind) returns (call: Option<AiCall>, p: Preview)
    ensures call == None && p == UploadPrompt
  {
    var d := new CreationDraft();
    call := d.StartAi(kind);
    p := d.Preview();
  }

  /** Edit the staged image, clear it, stage another: the preview shows the
      earlier edited image rather than the newly staged one, because clearing
      keeps the AI result and the picture prefers it. */
  method ReuploadShowsEarlierResult() returns (p: Preview)
    ensures p == Picture("data:image/png;base64,ZWRpdGVk")
  {
    var d := new CreationDraft();
    d.HandleImageUpload(Loaded("data:image/png;base64,Zmlyc3Q="));
    var call := d.StartAi(Edit);
    d.SettleAi(Edit, Returned("data:image/png;base64,ZWRpdGVk"));
    d.ClearImage();
    d.HandleImageUpload(Loaded("data:image/png;base64,c2Vjb25k"));
    p := d.Preview();
  }

  /** A video after an edit replaces the edited image: the draft never holds
      both, and the preview switches to the player. */
  method VideoReplacesEdit() returns (p: Preview, kept: Option<AiKind>)
    ensures p == Player("blob:video") && kept == Some(Video)
  {
    var d := new CreationDraft();
    d.HandleImageUpload(Loaded("data:image/png;base64,aW1n"));
    assert d.ToolsVisible() && d.OneAtATime();
    var first := d.StartAi(Edit);
    assert d.pending == multiset{Edit};
    d.SettleAi(Edit, Returned("data:image/png;base64,ZWRpdGVk"));
    assert d.pending == multiset{} && d.ToolsVisible() && d.OneAtATime();
    var second := d.StartAi(Video);
    assert d.pending == multiset{Video};
    d.SettleAi(Video, Returned("blob:video"));
    p, kept := d.Preview(), d.aiType;
  }

  /** A failed video call after an edit leaves the edited image in place. */
  method FailureKeepsEarlierResult(failure: Outcome) returns (p: Preview)
    requires !Delivered(failure)
    ensures p == Picture("data:image/png;base64,ZWRpdGVk")
  {
    var d := new CreationDraft();
    d.HandleImageUpload(Loaded("data:image/png;base64,aW1n"));
    assert d.ToolsVisible() && d.OneAtATime();
    var first := d.StartAi(Edit);
    assert d.pending == multiset{Edit};
    d.SettleAi(Edit, Returned("data:image/png;base64,ZWRpdGVk"));
    assert d.pending == multiset{} && d.ToolsVisible() && d.OneAtATime();
    var second := d.StartAi(Video);
    assert d.pending == multiset{Video};
    d.SettleAi(Video, failure);
    p := d.Preview();
  }
}
