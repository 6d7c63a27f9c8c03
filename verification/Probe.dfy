/**
 The object storage probe against a remote that may fail any call, or carry a failed call out later. The
 remote makes a single attempt of each call. Its choices are arbitrary; its contracts say what an answer of
 the storage service means.
 */
module Probe {
  import opened Overlay

  type Bytes = seq<nat>

  datatype Stage = Client | CreateMultipart | SignedPut | ListParts | Complete | Head | SignedGet | Abort | Delete | Head404

  const FORWARD := [CreateMultipart, SignedPut, ListParts, Complete, Head, SignedGet]

  // ---- the remote -----------------------------------------------------------------------------

  /** What a create call answers as upload id: nothing usable, something that is no string, or a string. */
  datatype UploadId = NoId | OddId | GoodId(text: string)

  datatype CreateReply = Created(id: UploadId) | CreateRaised
  datatype PutReply = PutAnswer(status: int, etag: Option<string>) | PutRaised
  datatype Part = Part(number: int, size: int, etag: string)
  datatype ListReply = Listed(truncated: Option<bool>, parts: seq<Part>) | ListRaised
  datatype DoneReply = Done | Raised(code: string)
  datatype HeadReply = Found(length: int, contentType: string, metadata: map<string, string>) | HeadRaised(code: string)
  /** A streamed answer may break off after its chunks. */
  datatype GetReply = Stream(status: int, chunks: seq<Bytes>, broken: bool) | GetRaised

  /** What the remote has answered, call by call. */
  datatype Answer =
    | ToCreate(create: CreateReply)
    | ToPut(put: PutReply)
    | ToList(list: ListReply)
    | ToComplete(complete: DoneReply)
    | ToAbort(abort: DoneReply)
    | ToDelete(delete: DoneReply)
    | ToHead(head: HeadReply)
    | ToGet(get: GetReply)

  /** Error codes that say that there is no such upload, and no such object. */
  const UPLOAD_GONE := {"NoSuchUpload", "404"}
  const OBJECT_GONE := {"404", "NoSuchKey", "NotFound"}

  /** The upload and the object under the probe's random key, and calls that may still be carried out. */
  class Remote {
    var upload: bool
    var stored: bool
    var pending: set<Stage>
    ghost var answers: seq<Answer>

    constructor ()
      ensures Nothing() && answers == []
    {
      upload, stored, pending, answers := false, false, {}, [];
    }

    /** Neither upload nor object, and none can appear. */
    predicate Nothing()
      reads this
    {
      !upload && !stored && pending == {}
    }

    /** Time passes: calls in flight may be carried out. Nothing else changes anything. */
    method Elapse()
      modifies this
      ensures old(pending) == {} ==> upload == old(upload) && stored == old(stored) && pending == {}
      ensures pending == old(pending) && answers == old(answers)
    {
      if pending != {} { upload, stored := *, *; }
    }

    method CreateUpload() returns (reply: CreateReply)
      modifies this
      ensures answers == old(answers) + [ToCreate(reply)]
      ensures reply.Created? && old(pending) == {} ==> upload && stored == old(stored) && pending == {}
      ensures reply.CreateRaised? ==> CreateMultipart in pending
    {
      Elapse();
      reply := *;
      if reply.Created? { upload := true; } else { pending := pending + {CreateMultipart}; upload := *; }
      answers := answers + [ToCreate(reply)];
    }

    /** Only an answer with status 200 says that the part is stored; nothing else ends the call. */
    method PutPart() returns (reply: PutReply)
      modifies this
      ensures answers == old(answers) + [ToPut(reply)]
      ensures old(pending) == {} ==> upload == old(upload) && stored == old(stored)
      ensures reply.PutAnswer? && reply.status == 200 ==> pending == old(pending)
      ensures !(reply.PutAnswer? && reply.status == 200) ==> SignedPut in pending
    {
      Elapse();
      reply := *;
      if !(reply.PutAnswer? && reply.status == 200) { pending := pending + {SignedPut}; }
      answers := answers + [ToPut(reply)];
    }

    method List() returns (reply: ListReply)
      modifies this
      ensures answers == old(answers) + [ToList(reply)]
      ensures old(pending) == {} ==> upload == old(upload) && stored == old(stored) && pending == {}
    {
      Elapse();
      reply := *;
      answers := answers + [ToList(reply)];
    }

    method CompleteUpload() returns (reply: DoneReply)
      modifies this
      ensures answers == old(answers) + [ToComplete(reply)]
      ensures reply.Done? && old(pending) == {} ==> !upload && stored && pending == {}
      ensures reply.Raised? ==> Complete in pending
    {
      Elapse();
      reply := *;
      if reply.Done? { upload, stored := false, true; } else { pending := pending + {Complete}; upload, stored := *, *; }
      answers := answers + [ToComplete(reply)];
    }

    /** An abort is over when it succeeds or when the upload turns out not to exist. */
    method AbortUpload() returns (reply: DoneReply)
      modifies this
      ensures answers == old(answers) + [ToAbort(reply)]
      ensures (reply.Raised? ==> reply.code in UPLOAD_GONE) && old(pending) == {} ==>
                !upload && stored == old(stored) && pending == {}
    {
      Elapse();
      reply := *;
      if reply.Raised? && reply.code in UPLOAD_GONE && upload { reply := Done; }
      if reply.Raised? {
        if reply.code !in UPLOAD_GONE { pending := pending + {Abort}; upload := *; }
      } else {
        upload := false;
      }
      answers := answers + [ToAbort(reply)];
    }

    method DeleteObject() returns (reply: DoneReply)
      modifies this
      ensures answers == old(answers) + [ToDelete(reply)]
      ensures reply.Done? && old(pending) == {} ==> upload == old(upload) && !stored && pending == {}
    {
      Elapse();
      reply := *;
      if reply.Done? { stored := false; } else { pending := pending + {Delete}; stored := *; }
      answers := answers + [ToDelete(reply)];
    }

    /** The object is only reported missing when it is. */
    method HeadObject() returns (reply: HeadReply)
      modifies this
      ensures answers == old(answers) + [ToHead(reply)]
      ensures old(pending) == {} ==> upload == old(upload) && stored == old(stored) && pending == {}
      ensures reply.HeadRaised? && reply.code in OBJECT_GONE ==> !stored
    {
      Elapse();
      reply := *;
      if stored && reply.HeadRaised? && reply.code in OBJECT_GONE { reply := HeadRaised(""); }
      answers := answers + [ToHead(reply)];
    }

    method Get() returns (reply: GetReply)
      modifies this
      ensures answers == old(answers) + [ToGet(reply)]
      ensures old(pending) == {} ==> upload == old(upload) && stored == old(stored) && pending == {}
    {
      Elapse();
      reply := *;
      answers := answers + [ToGet(reply)];
    }
  }

  // ---- the probe ------------------------------------------------------------------------------

  /** What is uploaded, and what its object must look like. */
  datatype Plan = Plan(payload: Bytes, metadata: map<string, string>, digest: Bytes -> string)

  datatype Report = Report(passed: bool, verified: bool, steps: seq<Stage>, failedStep: Option<Stage>)

  function Flatten(chunks: seq<Bytes>): Bytes {
    if chunks == [] then [] else Flatten(chunks[..|chunks| - 1]) + chunks[|chunks| - 1]
  }

  lemma {:induction false} FlattenGrows(chunks: seq<Bytes>, n: nat)
    requires n <= |chunks|
    ensures |Flatten(chunks[..n])| <= |Flatten(chunks)|
  {
    if n < |chunks| {
      var m := |chunks| - 1;
      FlattenGrows(chunks[..m], n);
      assert chunks[..m][..n] == chunks[..n];
    } else {
      assert chunks[..n] == chunks;
    }
  }

  predicate Received(reply: GetReply, plan: Plan) {
    && reply.Stream? && reply.status == 200 && !reply.broken
    && |Flatten(reply.chunks)| == |plan.payload| && plan.digest(Flatten(reply.chunks)) == plan.digest(plan.payload)
  }

  /** Reading stops as soon as more has come than was sent; that loses no good answer. */
  method Receive(reply: GetReply, plan: Plan) returns (ok: bool)
    ensures ok <==> Received(reply, plan)
  {
    if reply.GetRaised? || reply.status != 200 { return false; }
    var received: Bytes := [];
    for i := 0 to |reply.chunks|
      invariant received == Flatten(reply.chunks[..i]) && |received| <= |plan.payload|
    {
      var chunk := reply.chunks[i];
      assert reply.chunks[..i + 1][..i] == reply.chunks[..i];
      if |received| + |chunk| > |plan.payload| {
        FlattenGrows(reply.chunks, i + 1);
        return false;
      }
      received := received + chunk;
    }
    assert reply.chunks[..|reply.chunks|] == reply.chunks;
    return !reply.broken && |received| == |plan.payload| && plan.digest(received) == plan.digest(plan.payload);
  }

  /** The single part that was put, and no other. */
  predicate PartVerified(reply: ListReply, plan: Plan, etag: string) {
    && reply.Listed? && reply.truncated == Some(false) && |reply.parts| == 1
    && reply.parts[0] == Part(1, |plan.payload|, etag)
  }

  predicate HeadVerified(reply: HeadReply, plan: Plan) {
    reply == Found(|plan.payload|, "application/octet-stream", plan.metadata)
  }

  /** The answers of a probe that has verified every forward stage, in order. */
  predicate ForwardVerified(answers: seq<Answer>, plan: Plan) {
    && |answers| == 6
    && answers[0].ToCreate? && answers[0].create.Created? && answers[0].create.id.GoodId?
    && answers[1].ToPut? && answers[1].put.PutAnswer? && answers[1].put.status == 200
    && answers[1].put.etag.Some? && answers[1].put.etag.value != ""
    && answers[2].ToList? && PartVerified(answers[2].list, plan, answers[1].put.etag.value)
    && answers[3] == ToComplete(Done)
    && answers[4].ToHead? && HeadVerified(answers[4].head, plan)
    && answers[5].ToGet? && Received(answers[5].get, plan)
  }

  /** Deletion was confirmed, and then the object was reported missing. */
  predicate GoneVerified(answers: seq<Answer>) {
    && |answers| == 2 && answers[0] == ToDelete(Done)
    && answers[1].ToHead? && answers[1].head.HeadRaised? && answers[1].head.code in OBJECT_GONE
  }

  /** Where the forward stages ended; `None` when all of them verified. */
  predicate StoppedAt(steps: seq<Stage>, failed: Option<Stage>) {
    && steps <= FORWARD
    && match failed
       case None => steps == FORWARD
       case Some(stage) => |steps| < 6 && (stage == FORWARD[|steps|] || (stage == Client && steps == []))
  }

  /** The forward stages. Signing a URL (`signs`) is local and may fail too. */
  method Forward(remote: Remote, plan: Plan, httpMade: bool, signs: Stage -> bool)
    returns (id: UploadId, completed: bool, steps: seq<Stage>, failed: Option<Stage>)
    requires remote.Nothing() && remote.answers == []
    modifies remote
    ensures failed.None? ==> ForwardVerified(remote.answers, plan)
    ensures StoppedAt(steps, failed) && (completed <==> |steps| >= 4) && (|steps| >= 1 ==> id.GoodId?)
    ensures failed == Some(Client) ==> id == NoId
    ensures id != NoId && failed != Some(SignedPut) && failed != Some(Complete) ==>
              remote.pending == {} && remote.upload == !completed && remote.stored == completed
  {
    id, completed, steps := NoId, false, [];
    if !httpMade { return id, completed, steps, Some(Client); }
    var created := remote.CreateUpload();
    if created.CreateRaised? { return id, completed, steps, Some(CreateMultipart); }
    id := created.id;
    if !id.GoodId? { return id, completed, steps, Some(CreateMultipart); }
    steps := [CreateMultipart];
    if !signs(SignedPut) { return id, completed, steps, Some(SignedPut); }
    var put := remote.PutPart();
    if put.PutRaised? || put.status != 200 || put.etag.None? || put.etag.value == "" {
      return id, completed, steps, Some(SignedPut);
    }
    steps := [CreateMultipart, SignedPut];
    var listed := remote.List();
    if !PartVerified(listed, plan, put.etag.value) { return id, completed, steps, Some(ListParts); }
    steps := [CreateMultipart, SignedPut, ListParts];
    var done := remote.CompleteUpload();
    if done.Raised? { return id, completed, steps, Some(Complete); }
    completed := true;
    steps := [CreateMultipart, SignedPut, ListParts, Complete];
    var head := remote.HeadObject();
    if !HeadVerified(head, plan) { return id, completed, steps, Some(Head); }
    steps := [CreateMultipart, SignedPut, ListParts, Complete, Head];
    if !signs(SignedGet) { return id, completed, steps, Some(SignedGet); }
    var get := remote.Get();
    var ok := Receive(get, plan);
    if !ok { return id, completed, steps, Some(SignedGet); }
    return id, completed, FORWARD, None;
  }

  /** The cleanup: abort what was not completed, delete, and look whether the object is gone. */
  method CleanUp(remote: Remote, id: UploadId, completed: bool, failed: Option<Stage>, steps: seq<Stage>)
    returns (clean: bool, all: seq<Stage>)
    requires id != NoId && failed != Some(SignedPut) && failed != Some(Complete) ==>
               remote.pending == {} && remote.upload == !completed
    requires completed ==> failed != Some(SignedPut) && failed != Some(Complete)
    modifies remote
    ensures clean ==> remote.Nothing() && all == steps + [Delete, Head404]
    ensures clean ==> id != NoId && (completed || (failed != Some(SignedPut) && failed != Some(Complete)))
    ensures all == steps || all == steps + [Delete] || all == steps + [Delete, Head404]
    ensures old(remote.answers) <= remote.answers
    ensures clean && completed ==> GoneVerified(remote.answers[|old(remote.answers)|..])
    ensures all == steps + [Delete, Head404] && id != NoId && completed ==> clean
  {
    clean, all := true, steps;
    if id != NoId && !completed {
      var aborted := remote.AbortUpload();
      if aborted.Raised? && aborted.code !in UPLOAD_GONE { clean := false; }
    }
    if id == NoId { clean := false; }
    var deleted := remote.DeleteObject();
    if deleted.Raised? {
      clean := false;
    } else {
      all := steps + [Delete];
      var head := remote.HeadObject();
      if head.HeadRaised? && head.code in OBJECT_GONE {
        all := steps + [Delete, Head404];
      } else {
        clean := false;
      }
    }
    if !completed && (failed == Some(SignedPut) || failed == Some(Complete)) { clean := false; }
  }

  /**
   For every pattern of outcomes: "cleanup verified" means that neither upload nor object remains and that no
   call is left that could still bring one back; "passed" means exactly that the six forward stages, the
   deletion and the final look were verified, in this order; and passing includes a verified cleanup.
   */
  method ProbeObject(remote: Remote, plan: Plan, clientMade: bool, httpMade: bool, signs: Stage -> bool) returns (report: Report)
    requires remote.Nothing() && remote.answers == []
    modifies remote
    ensures report.passed ==> |remote.answers| == 8 && ForwardVerified(remote.answers[..6], plan) && GoneVerified(remote.answers[6..])
    ensures report.verified ==> remote.Nothing()
    ensures report.passed <==> report.steps == FORWARD + [Delete, Head404]
    ensures report.passed ==> report.verified && report.failedStep.None?
    ensures report.verified && !report.passed ==>
              report.failedStep.Some? && report.failedStep.value in {CreateMultipart, ListParts, Head, SignedGet}
    ensures !clientMade ==> report == Report(false, false, [], Some(Client))
  {
    if !clientMade { return Report(false, false, [], Some(Client)); }
    var id, completed, steps, failed := Forward(remote, plan, httpMade, signs);
    var clean, all := CleanUp(remote, id, completed, failed, steps);
    return Report(failed.None? && clean, clean, all, failed);
  }
}
