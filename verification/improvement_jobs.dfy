/** The bindings of self-improvement Jobs: which improvement, with which metadata, a Job works for. */
module ImprovementJobs {
  import opened Wrappers
  import Jobs

  type Id = Jobs.Id

  /** The Hub derives an improvement's id from the conversation turn that asked for it; the Owner may choose any id. */
  datatype ImprovementId = OfTurn(turnId: Id) | Chosen(name: string)

  /** `context` is the JSON text of the metadata. The branch is derived from the id. */
  datatype Binding = Binding(improvementId: ImprovementId, context: string)

  type Bindings = map<Id, Binding>

  datatype Failure = BoundElsewhere | NotANewJob | ImprovementTaken

  /** A Job that may still be bound: an R1 develop Job of a sandboxed tool that waits for its approval. */
  predicate Bindable(job: Jobs.Job) {
    job.risk == Jobs.R1 && job.request.operation == "develop" && job.request.tool != Jobs.Agent && job.status == Jobs.WaitApproval
  }

  /** The UNIQUE index on improvement_id. */
  predicate Taken(bindings: Bindings, improvementId: ImprovementId) {
    exists jobId <- bindings :: bindings[jobId].improvementId == improvementId
  }

  function Register(bindings: Bindings, jobId: Id, job: Jobs.Job, b: Binding): Result<Bindings, Failure> {
    if jobId in bindings then if bindings[jobId] == b then Ok(bindings) else Err(BoundElsewhere)
    else if !Bindable(job) then Err(NotANewJob)
    else if Taken(bindings, b.improvementId) then Err(ImprovementTaken)
    else Ok(bindings[jobId := b])
  }

  class SelfImprovementJobRegistry {
    var bindings: Bindings

    constructor ()
      ensures bindings == map[]
    {
      bindings := map[];
    }

    method RegisterJob(jobId: Id, job: Jobs.Job, b: Binding) returns (result: Result<bool, Failure>)
      modifies this
      ensures match Register(old(bindings), jobId, job, b)
        case Ok(bindings') => bindings == bindings' && result == Ok(jobId in old(bindings))
        case Err(error) => bindings == old(bindings) && result == Err(error)
    {
      if jobId in bindings { return if bindings[jobId] == b then Ok(true) else Err(BoundElsewhere); }
      if job.risk != Jobs.R1 || job.request.operation != "develop" || job.request.tool == Jobs.Agent || job.status != Jobs.WaitApproval {
        return Err(NotANewJob);
      }
      if Taken(bindings, b.improvementId) { return Err(ImprovementTaken); }
      bindings := bindings[jobId := b];
      result := Ok(false);
    }
  }

  predicate OneJobEach(bindings: Bindings) {
    forall i <- bindings, j <- bindings | bindings[i].improvementId == bindings[j].improvementId :: i == j
  }

  /** A binding is made once, before the Job may run, and for one improvement only. */
  lemma RegisterBindsOnce(bindings: Bindings, jobId: Id, job: Jobs.Job, b: Binding)
    requires OneJobEach(bindings) && Register(bindings, jobId, job, b).Ok?
    ensures var bindings' := Register(bindings, jobId, job, b).value;
      && OneJobEach(bindings') && jobId in bindings' && bindings'[jobId] == b
      && (forall j <- bindings :: j in bindings' && bindings'[j] == bindings[j])
      && (jobId !in bindings ==> Bindable(job))
  {
  }
}
