/**
 * The persistent harvest records the queue handlers and the validators read
 * and write: sources, jobs, harvest objects and the error records attached
 * to jobs and objects.  Timestamps are kept as "was set" flags.
 */
module HarvestModel {
  import opened Wrappers

  type Id = string

  /** A harvest source; read-only to the handlers. */
  datatype Source = Source(id: Id, url: string, name: string, sourceType: string, active: bool)

  /** One harvest run against a source; `sourceType` is `job.source.type`. */
  datatype Job = Job(
    id: Id,
    sourceType: string,
    status: string,
    gatherStarted: bool,
    gatherFinished: bool)

  /**
   * One discovered item of a job.  `reportStatus == ""` stands for an unset
   * (None or empty) report_status; `current == None` for a NULL column.
   */
  datatype HObject = HObject(
    id: Id,
    jobId: Id,
    sourceType: string,
    guid: string,
    packageId: Option<Id>,
    state: string,
    reportStatus: string,
    current: Option<bool>,
    extras: map<string, string>,
    fetchStarted: bool,
    fetchFinished: bool,
    importStarted: bool,
    importFinished: bool)

  datatype GatherError = GatherError(jobId: Id, message: string)

  datatype ObjectError = ObjectError(objectId: Id, message: string, stage: string, line: Option<int>)
}
