/**
 * The analysis service's in-memory job store: a submission validates the
 * landmarks and registers a job as processing; the background task records
 * the pipeline's outcome as done or error; the poll endpoint projects a job
 * into its response. Routing, the upload file, the background scheduler and
 * the lock are outside the model; operations run one at a time.
 */
module JobStore {
  import opened Wrappers
  import opened Pipeline

  /** The least number of landmarks a submission must carry. */
  const MinLandmarks: nat := 200

  datatype Job =
    | Processing
    | Done(scores: Scores, regions: seq<RegionReport>, overlays: Overlays)
    | Failed(message: string)
  {
    function Status(): string {
      match this
      case Processing => "processing"
      case Done(_, _, _) => "done"
      case Failed(_) => "error"
    }
  }

  /** What the `landmarks` form field decodes to. */
  datatype LandmarksField =
    | Undecodable(error: string)     // not valid JSON: the decoder's message
    | NotAList                       // valid JSON, but not a list
    | Points(points: seq<seq<real>>) // a JSON list

  /** The reply to a submission. */
  datatype SubmitReply = Accepted(status: string, jobId: string) | Rejected(code: int, detail: string)

  /** The body of a poll response; absent fields are `None`. */
  datatype PollResponse = PollResponse(
    status: string, jobId: string,
    scores: Option<Scores>, regions: Option<seq<RegionReport>>, overlays: Option<Overlays>,
    message: Option<string>)

  datatype PollReply = NotFound(code: int, detail: string) | Found(response: PollResponse)

  const BadLandmarksPrefix: string := "Bad landmarks: "
  const TooFewMessage: string := "Invalid landmarks; expected ~468 points"

  /** Landmark validation: a list of at least 200 points, or the 400 detail explaining why not. */
  function ValidateLandmarks(f: LandmarksField): (r: Result<seq<seq<real>>>)
    ensures r.Ok? <==> f.Points? && |f.points| >= MinLandmarks
    ensures r.Ok? ==> r.value == f.points
    ensures f.Undecodable? ==> r == Err(BadLandmarksPrefix + f.error)
    ensures (f.NotAList? || (f.Points? && |f.points| < MinLandmarks)) ==> r == Err(BadLandmarksPrefix + TooFewMessage)
  {
    match f
    case Undecodable(e) => Err(BadLandmarksPrefix + e)
    case NotAList => Err(BadLandmarksPrefix + TooFewMessage)
    case Points(ps) => if |ps| < MinLandmarks then Err(BadLandmarksPrefix + TooFewMessage) else Ok(ps)
  }

  /** The poll response for a stored job. */
  function Project(jobId: string, job: Job): (resp: PollResponse)
    ensures resp.status == job.Status() && resp.jobId == jobId
    ensures resp.scores.Some? <==> resp.status == "done"
    ensures resp.regions.Some? <==> resp.status == "done"
    ensures resp.overlays.Some? <==> resp.status == "done"
    ensures resp.message.Some? <==> resp.status == "error"
    ensures job.Done? ==> resp.scores == Some(job.scores) && resp.regions == Some(job.regions) && resp.overlays == Some(job.overlays)
    ensures job.Failed? ==> resp.message == Some(job.message)
  {
    match job
    case Processing => PollResponse("processing", jobId, None, None, None, None)
    case Done(s, r, o) => PollResponse("done", jobId, Some(s), Some(r), Some(o), None)
    case Failed(m) => PollResponse("error", jobId, None, None, None, Some(m))
  }

  /** What the background task stores for a pipeline outcome. */
  function Outcome(result: Result<PipelineResult>): (job: Job)
    ensures job.Processing? == false
    ensures result.Ok? <==> job.Done?
    ensures result.Ok? ==> job == Done(result.value.scores, result.value.regions, result.value.overlays)
    ensures result.Err? ==> job == Failed(result.message)
  {
    match result
    case Ok(r) => Done(r.scores, r.regions, r.overlays)
    case Err(m) => Failed(m)
  }

  class JobService {
    /** The job store, keyed by job id. */
    var jobs: map<string, Job>

    constructor ()
      ensures jobs == map[]
    {
      jobs := map[];
    }

    /**
     * `analyze`: rejects with 400 and creates nothing when the landmarks are
     * invalid; otherwise registers the fresh job id as processing.
     * `jobId` is the freshly drawn random identifier, assumed unused.
     */
    method Analyze(landmarks: LandmarksField, jobId: string) returns (reply: SubmitReply)
      requires jobId !in jobs
      modifies this
      ensures reply.Rejected? <==> ValidateLandmarks(landmarks).Err?
      ensures reply.Rejected? ==> reply == Rejected(400, ValidateLandmarks(landmarks).message) && jobs == old(jobs)
      ensures reply.Accepted? ==> reply == Accepted("processing", jobId) && jobs == old(jobs)[jobId := Processing]
      ensures old(jobs).Keys <= jobs.Keys
    {
      var lms := ValidateLandmarks(landmarks);
      if lms.Err? {
        return Rejected(400, lms.message);
      }
      jobs := jobs[jobId := Processing];
      reply := Accepted("processing", jobId);
    }

    /** `_process_job`: records the pipeline's outcome for this job only. */
    method ProcessJob(jobId: string, result: Result<PipelineResult>)
      modifies this
      ensures jobs == old(jobs)[jobId := Outcome(result)]
      ensures old(jobs).Keys <= jobs.Keys
      ensures forall k :: k in old(jobs) && k != jobId ==> jobs[k] == old(jobs)[k]
    {
      jobs := jobs[jobId := Outcome(result)];
    }

    /** `get_result`: 404 for an unknown id, else the projection of the stored job. */
    method GetResult(jobId: string) returns (reply: PollReply)
      ensures jobId !in jobs ==> reply == NotFound(404, "job not found")
      ensures jobId in jobs ==> reply == Found(Project(jobId, jobs[jobId]))
    {
      if jobId !in jobs {
        return NotFound(404, "job not found");
      }
      reply := Found(Project(jobId, jobs[jobId]));
    }
  }

  /**
   * One job's life: an accepted submission is seen as processing until the
   * background task finishes, then as done with the pipeline's scores.
   */
  method JobLifecycle(landmarks: seq<seq<real>>, jobId: string, result: PipelineResult)
    returns (submitted: SubmitReply, before: PollReply, after: PollReply)
    requires |landmarks| >= MinLandmarks
    ensures submitted == Accepted("processing", jobId)
    ensures before.Found? && before.response.status == "processing" && before.response.scores.None?
    ensures after.Found? && after.response.status == "done" && after.response.scores == Some(result.scores)
  {
    var service := new JobService();
    submitted := service.Analyze(Points(landmarks), jobId);
    before := service.GetResult(jobId);
    service.ProcessJob(jobId, Ok(result));
    after := service.GetResult(jobId);
  }
}
