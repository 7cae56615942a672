/**
 * The queued job that fills in a content generation request: `handle`
 * marks the request as processing, asks the AI writer for variations and
 * marks it completed with them; `failed` marks it failed with the error
 * message. The AI writer is a pair of uninterpreted functions.
 */
module GenerateContentJob {
  import opened Wrappers
  import opened SocialMediaContent

  /** The status column, cast to an enum backed by these strings. */
  datatype Status = Pending | Processing | Completed | Failed {
    function Value(): string {
      match this
      case Pending => "pending"
      case Processing => "processing"
      case Completed => "completed"
      case Failed => "failed"
    }
  }

  /**
   * The cast from the stored string back to the enum; `None` stands for the
   * error the cast raises on a string that backs no case.
   */
  function ParseStatus(v: string): (s: Option<Status>)
    ensures s.Some? ==> s.value.Value() == v
  {
    if v == "pending" then Some(Pending)
    else if v == "processing" then Some(Processing)
    else if v == "completed" then Some(Completed)
    else if v == "failed" then Some(Failed)
    else None
  }

  /** Every status is stored as a string that is read back as the same status. */
  lemma ParseValue(s: Status)
    ensures ParseStatus(s.Value()) == Some(s)
  {
  }

  datatype Platform = Twitter | Instagram | Facebook | LinkedIn
  datatype Tone = Professional | Casual | Humorous | Formal

  /**
   * The AI writer: each call returns the generated variations or throws an
   * exception, represented by its message.
   */
  datatype Writer = Writer(
    rewrite: (Content, Platform, Tone) -> Result<seq<string>, string>,
    generate: (string, Platform, Tone) -> Result<seq<string>, string>)

  /** What `handle` can throw. */
  datatype Thrown =
    | WriterError(message: string)  // the writer's own exception
    | UnhandledMatch(kind: string)  // the match has no arm for this type
    | MissingContent                // a rewrite without linked content: null passed where content is required

  /** The columns of a request the job reads and writes. */
  datatype Request = Request(
    accountId: int,
    kind: string,
    prompt: string,
    platform: Platform,
    tone: Tone,
    status: Status,
    generatedContent: Option<seq<string>>,
    error: Option<string>,
    content: Option<Content>)

  const UnknownError := "An unknown error occurred."

  /** The columns neither transition writes. */
  predicate SameInputs(a: Request, b: Request) {
    && a.accountId == b.accountId
    && a.kind == b.kind
    && a.prompt == b.prompt
    && a.platform == b.platform
    && a.tone == b.tone
    && a.content == b.content
  }

  /** The match on the request type and the writer call it selects. */
  function Dispatch(r: Request, w: Writer): (out: Result<seq<string>, Thrown>)
    ensures (out.Failure? && out.error.UnhandledMatch?) <==> r.kind != "rewrite" && r.kind != "generate"
    ensures out.Failure? && out.error.UnhandledMatch? ==> out.error.kind == r.kind
    ensures (out.Failure? && out.error == MissingContent) <==> r.kind == "rewrite" && r.content.None?
    ensures out.Success? && r.kind == "generate" ==> w.generate(r.prompt, r.platform, r.tone) == Success(out.value)
    ensures out.Success? && r.kind == "rewrite" ==>
      r.content.Some? && w.rewrite(r.content.value, r.platform, r.tone) == Success(out.value)
    ensures out.Failure? && out.error.WriterError? ==>
      || (r.kind == "generate" && w.generate(r.prompt, r.platform, r.tone) == Failure(out.error.message))
      || (r.kind == "rewrite" && r.content.Some? &&
          w.rewrite(r.content.value, r.platform, r.tone) == Failure(out.error.message))
  {
    if r.kind == "rewrite" then
      if r.content.None? then Failure(MissingContent)
      else match w.rewrite(r.content.value, r.platform, r.tone)
        case Success(v) => Success(v)
        case Failure(m) => Failure(WriterError(m))
    else if r.kind == "generate" then
      match w.generate(r.prompt, r.platform, r.tone)
      case Success(v) => Success(v)
      case Failure(m) => Failure(WriterError(m))
    else Failure(UnhandledMatch(r.kind))
  }

  /** The request after `handle`, and what it threw. */
  function AfterHandle(r: Request, w: Writer): (res: (Request, Option<Thrown>))
    ensures res.1.None? <==> Dispatch(r, w).Success?
    ensures res.1.Some? ==> res.1.value == Dispatch(r, w).error
    ensures res.0.status == (if res.1.None? then Completed else Processing)
    ensures res.1.None? ==> res.0.generatedContent == Some(Dispatch(r, w).value)
    ensures res.1.Some? ==> res.0.generatedContent == r.generatedContent
    ensures res.0.error == r.error
    ensures SameInputs(res.0, r)
  {
    match Dispatch(r, w)
    case Success(v) => (r.(status := Completed, generatedContent := Some(v)), None)
    case Failure(t) => (r.(status := Processing), Some(t))
  }

  /** The request after `failed` with the exception's message, if any. */
  function AfterFailed(r: Request, message: Option<string>): (r': Request)
    ensures r'.status == Failed
    ensures message.Some? ==> r'.error == Some(message.value)
    ensures message.None? ==> r'.error == Some(UnknownError)
    ensures r'.generatedContent == r.generatedContent
    ensures SameInputs(r', r)
  {
    r.(status := Failed, error := Some(if message.Some? then message.value else UnknownError))
  }

  /**
   * A run of the job: `handle`, then `failed` with the message of whatever
   * it threw (`engineMessage` for exceptions raised by PHP itself).
   */
  function Run(r: Request, w: Writer, engineMessage: string): (r': Request)
  {
    var (handled, thrown) := AfterHandle(r, w);
    match thrown
    case None => handled
    case Some(WriterError(m)) => AfterFailed(handled, Some(m))
    case Some(_) => AfterFailed(handled, Some(engineMessage))
  }

  /**
   * A run ends completed with the writer's output or failed with its
   * message; it never ends pending or processing, and it keeps the request's
   * own columns.
   */
  lemma RunOutcome(r: Request, w: Writer, engineMessage: string)
    ensures Run(r, w, engineMessage).status in {Completed, Failed}
    ensures Run(r, w, engineMessage).status == Completed <==> Dispatch(r, w).Success?
    ensures Dispatch(r, w).Success? ==> Run(r, w, engineMessage).generatedContent == Some(Dispatch(r, w).value)
    ensures Dispatch(r, w).Failure? ==> Run(r, w, engineMessage).generatedContent == r.generatedContent
    ensures r.kind == "generate" && w.generate(r.prompt, r.platform, r.tone).Failure? ==>
      Run(r, w, engineMessage).error == Some(w.generate(r.prompt, r.platform, r.tone).error)
    ensures r.kind == "rewrite" && r.content.Some? && w.rewrite(r.content.value, r.platform, r.tone).Failure? ==>
      Run(r, w, engineMessage).error == Some(w.rewrite(r.content.value, r.platform, r.tone).error)
    ensures SameInputs(Run(r, w, engineMessage), r)
  {
  }

  /** A second `failed` only replaces the error. */
  lemma FailedTwice(r: Request, first: Option<string>, second: Option<string>)
    ensures AfterFailed(AfterFailed(r, first), second) == AfterFailed(r, second)
  {
  }

  /** `failed` after a completed `handle` keeps the generated content. */
  lemma FailedAfterSuccessKeepsContent(r: Request, w: Writer, message: Option<string>)
    requires Dispatch(r, w).Success?
    ensures AfterFailed(AfterHandle(r, w).0, message).generatedContent == Some(Dispatch(r, w).value)
    ensures AfterFailed(AfterHandle(r, w).0, message).status == Failed
  {
  }

  /** A request row; `update` assigns its fields. */
  class ContentGenerationRequest {
    var accountId: int
    var kind: string
    var prompt: string
    var platform: Platform
    var tone: Tone
    var status: Status
    var generatedContent: Option<seq<string>>
    var error: Option<string>
    var content: Option<Content>
    /** The statuses written by `update`, oldest first. */
    ghost var statusHistory: seq<Status>

    function Snapshot(): Request
      reads this
    {
      Request(accountId, kind, prompt, platform, tone, status, generatedContent, error, content)
    }

    constructor (r: Request)
      ensures Snapshot() == r
      ensures statusHistory == []
    {
      accountId := r.accountId;
      kind := r.kind;
      prompt := r.prompt;
      platform := r.platform;
      tone := r.tone;
      status := r.status;
      generatedContent := r.generatedContent;
      error := r.error;
      content := r.content;
      statusHistory := [];
    }

    /** `update(['status' => ...])`. */
    method UpdateStatus(s: Status)
      modifies this
      ensures Snapshot() == old(Snapshot()).(status := s)
      ensures statusHistory == old(statusHistory) + [s]
    {
      status := s;
      statusHistory := statusHistory + [s];
    }

    /** `update(['status' => Completed, 'generated_content' => ...])`. */
    method UpdateCompleted(variations: seq<string>)
      modifies this
      ensures Snapshot() == old(Snapshot()).(status := Completed, generatedContent := Some(variations))
      ensures statusHistory == old(statusHistory) + [Completed]
    {
      status := Completed;
      generatedContent := Some(variations);
      statusHistory := statusHistory + [Completed];
    }

    /** `update(['status' => Failed, 'error' => ...])`. */
    method UpdateFailed(message: string)
      modifies this
      ensures Snapshot() == old(Snapshot()).(status := Failed, error := Some(message))
      ensures statusHistory == old(statusHistory) + [Failed]
    {
      status := Failed;
      error := Some(message);
      statusHistory := statusHistory + [Failed];
    }
  }

  class GenerateContentJob {
    const request: ContentGenerationRequest

    constructor (request: ContentGenerationRequest)
      ensures this.request == request
    {
      this.request := request;
    }

    /**
     * Marks the request as processing, then calls the writer the type
     * selects; on success it stores the variations and marks it completed.
     * Whatever is thrown leaves the request processing.
     */
    method Handle(writer: Writer) returns (thrown: Option<Thrown>)
      modifies request
      ensures (request.Snapshot(), thrown) == AfterHandle(old(request.Snapshot()), writer)
      ensures request.statusHistory ==
        old(request.statusHistory) + [Processing] + (if thrown.None? then [Completed] else [])
    {
      request.UpdateStatus(Processing);
      var generated: Result<seq<string>, string>;
      if request.kind == "rewrite" {
        if request.content.None? {
          return Some(MissingContent);
        }
        generated := writer.rewrite(request.content.value, request.platform, request.tone);
      } else if request.kind == "generate" {
        generated := writer.generate(request.prompt, request.platform, request.tone);
      } else {
        return Some(UnhandledMatch(request.kind));
      }
      if generated.Failure? {
        return Some(WriterError(generated.error));
      }
      request.UpdateCompleted(generated.value);
      thrown := None;
    }

    /** Marks the request as failed with the exception's message, or a fixed one when there is none. */
    method Failed(message: Option<string>)
      modifies request
      ensures request.Snapshot() == AfterFailed(old(request.Snapshot()), message)
      ensures request.statusHistory == old(request.statusHistory) + [Status.Failed]
    {
      var m := if message.Some? then message.value else UnknownError;
      request.UpdateFailed(m);
    }
  }
}
