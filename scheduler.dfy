/** `download_subset_videos`: turn each data row of a subset into a 10-second
    segment job, skip the rows whose three outputs all exist, and hand the
    others, in row order, to the worker pool. */
module Scheduler {
  import opened Host
  import opened Text
  import opened Segment

  /** A data row, its start time already read as `int(row[1])`,
      `int(row[2])` and `int(row[3])`. */
  datatype Row = Row(ytid: string, hours: int, minutes: int, seconds: int)

  /** The part of the worker arguments that varies from row to row. */
  datatype Job = Job(ytid: string, start: real, end: real)

  /** What the scheduler produces: the jobs it submits, in order, and the
      records it logs for the rows it skips. */
  datatype Plan = Plan(jobs: seq<Job>, log: seq<Event>)

  /** `float(h * 3600 + m * 60 + s)`. */
  function StartOffset(r: Row): real {
    (r.hours * 3600 + r.minutes * 60 + r.seconds) as real
  }

  /** The segment of a row: it starts at the row's offset and lasts
      `SegmentSeconds`. */
  function JobOf(r: Row): Job {
    var start := StartOffset(r);
    Job(r.ytid, start, start + SegmentSeconds)
  }

  /** The three outputs of a job, built exactly as the worker builds them. */
  function JobPaths(mediaName: (string, real, real) -> string, dataDir: Path, cfg: MediaConfig, j: Job)
    : SegmentPaths
  {
    OutputPaths(mediaName, dataDir, j.ytid, j.start, j.end, cfg.videoFormat, cfg.audioFormat)
  }

  /** The skip test: the video, the audio and the muxed output all exist. */
  predicate AllPresent(files: set<Path>, p: SegmentPaths) {
    p.video in files && p.audio in files && p.muxed in files
  }

  /** The row is skipped when the outputs `pathsOf` gives for its job all
      exist. */
  predicate Skips(files: set<Path>, pathsOf: Job -> SegmentPaths, r: Row) {
    AllPresent(files, pathsOf(JobOf(r)))
  }

  /** The loop over the rows, as a function of the rows seen so far, for a
      host holding `files` and outputs named by `pathsOf`. */
  function Schedule(files: set<Path>, pathsOf: Job -> SegmentPaths, rows: seq<Row>): Plan
  {
    if rows == [] then Plan([], [])
    else
      var prev := Schedule(files, pathsOf, rows[..|rows| - 1]);
      var j := JobOf(rows[|rows| - 1]);
      if Skips(files, pathsOf, rows[|rows| - 1]) then
        Plan(prev.jobs, prev.log + [AlreadyDownloaded(j.ytid, j.start, j.end)])
      else
        Plan(prev.jobs + [j], prev.log)
  }

  /** The loop of `download_subset_videos` on the host: the submitted jobs are
      returned, the skip records go to the log, and nothing else changes. */
  method SubmitJobs(world: World, mediaName: (string, real, real) -> string, dataDir: Path,
                    cfg: MediaConfig, rows: seq<Row>)
    returns (jobs: seq<Job>)
    modifies world
    ensures var plan := Schedule(old(world.files), j => JobPaths(mediaName, dataDir, cfg, j), rows);
      jobs == plan.jobs && world.log == old(world.log) + plan.log
    ensures world.files == old(world.files) && world.commands == old(world.commands)
  {
    jobs := [];
    var i := 0;
    while i < |rows|
      invariant 0 <= i <= |rows|
      invariant world.files == old(world.files) && world.commands == old(world.commands)
      invariant var plan := Schedule(old(world.files), j => JobPaths(mediaName, dataDir, cfg, j), rows[..i]);
        jobs == plan.jobs && world.log == old(world.log) + plan.log
    {
      assert rows[..i + 1][..i] == rows[..i];
      var row := rows[i];
      var job := JobOf(row);
      var p := JobPaths(mediaName, dataDir, cfg, job);
      if p.video in world.files && p.audio in world.files && p.muxed in world.files {
        world.Log(AlreadyDownloaded(job.ytid, job.start, job.end));
      } else {
        jobs := jobs + [job];
      }
      i := i + 1;
    }
    assert rows[..i] == rows;
  }
}
