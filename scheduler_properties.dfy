/** What `download_subset_videos` promises about the jobs it submits. */
module ScheduleProperties {
  import opened Host
  import opened Segment
  import opened Scheduler
  import opened SegmentProperties

  /** The plan of rows `a + b` is the plan of `a` followed by the plan of
      `b`: each row is decided on its own, and the order of the rows is kept. */
  lemma {:induction false} ScheduleSplit(files: set<Path>, pathsOf: Job -> SegmentPaths, a: seq<Row>, b: seq<Row>)
    ensures var pa := Schedule(files, pathsOf, a);
      var pb := Schedule(files, pathsOf, b);
      Schedule(files, pathsOf, a + b) == Plan(pa.jobs + pb.jobs, pa.log + pb.log)
    decreases |b|
  {
    if b == [] {
      assert a + b == a;
    } else {
      var b' := b[..|b| - 1];
      assert (a + b)[..|a + b| - 1] == a + b';
      assert (a + b)[|a + b| - 1] == b[|b| - 1];
      ScheduleSplit(files, pathsOf, a, b');
    }
  }

  /** Every row is either submitted as a job or logged as skipped. */
  lemma {:induction false} EveryRowAccounted(files: set<Path>, pathsOf: Job -> SegmentPaths, rows: seq<Row>)
    ensures var plan := Schedule(files, pathsOf, rows);
      |plan.jobs| + |plan.log| == |rows|
    decreases |rows|
  {
    if rows != [] {
      EveryRowAccounted(files, pathsOf, rows[..|rows| - 1]);
    }
  }

  /** A job is submitted if and only if it is the job of some row whose three
      outputs do not all exist. */
  lemma {:induction false} SubmittedIffMissing(files: set<Path>, pathsOf: Job -> SegmentPaths, rows: seq<Row>, j: Job)
    ensures j in Schedule(files, pathsOf, rows).jobs
        <==> exists k :: 0 <= k < |rows| && JobOf(rows[k]) == j && !Skips(files, pathsOf, rows[k])
    decreases |rows|
  {
    if rows != [] {
      var init := rows[..|rows| - 1];
      SubmittedIffMissing(files, pathsOf, init, j);
      if exists k :: 0 <= k < |rows| && JobOf(rows[k]) == j && !Skips(files, pathsOf, rows[k]) {
        var k :| 0 <= k < |rows| && JobOf(rows[k]) == j && !Skips(files, pathsOf, rows[k]);
        if k < |init| {
          assert init[k] == rows[k];
        }
      }
      if exists k :: 0 <= k < |init| && JobOf(init[k]) == j && !Skips(files, pathsOf, init[k]) {
        var k :| 0 <= k < |init| && JobOf(init[k]) == j && !Skips(files, pathsOf, init[k]);
        assert rows[k] == init[k];
      }
    }
  }

  /** A skip record is logged if and only if it names the segment of some row
      whose three outputs all exist. */
  lemma {:induction false} SkipLoggedIffPresent(files: set<Path>, pathsOf: Job -> SegmentPaths, rows: seq<Row>, e: Event)
    ensures e in Schedule(files, pathsOf, rows).log
        <==> exists k :: 0 <= k < |rows| && Skips(files, pathsOf, rows[k])
                && e == AlreadyDownloaded(JobOf(rows[k]).ytid, JobOf(rows[k]).start, JobOf(rows[k]).end)
    decreases |rows|
  {
    if rows != [] {
      var init := rows[..|rows| - 1];
      SkipLoggedIffPresent(files, pathsOf, init, e);
      if exists k :: 0 <= k < |rows| && Skips(files, pathsOf, rows[k])
                     && e == AlreadyDownloaded(JobOf(rows[k]).ytid, JobOf(rows[k]).start, JobOf(rows[k]).end) {
        var k :| 0 <= k < |rows| && Skips(files, pathsOf, rows[k])
                 && e == AlreadyDownloaded(JobOf(rows[k]).ytid, JobOf(rows[k]).start, JobOf(rows[k]).end);
        if k < |init| {
          assert init[k] == rows[k];
        }
      }
      if exists k :: 0 <= k < |init| && Skips(files, pathsOf, init[k])
                     && e == AlreadyDownloaded(JobOf(init[k]).ytid, JobOf(init[k]).start, JobOf(init[k]).end) {
        var k :| 0 <= k < |init| && Skips(files, pathsOf, init[k])
                 && e == AlreadyDownloaded(JobOf(init[k]).ytid, JobOf(init[k]).start, JobOf(init[k]).end);
        assert rows[k] == init[k];
      }
    }
  }

  /** On a host where no row is complete, every row becomes a job, in row
      order, and nothing is logged. */
  lemma {:induction false} NothingPresentSubmitsAll(files: set<Path>, pathsOf: Job -> SegmentPaths, rows: seq<Row>)
    requires forall k :: 0 <= k < |rows| ==> !Skips(files, pathsOf, rows[k])
    ensures var plan := Schedule(files, pathsOf, rows);
      plan.log == []
      && |plan.jobs| == |rows|
      && forall k :: 0 <= k < |rows| ==> plan.jobs[k] == JobOf(rows[k])
    decreases |rows|
  {
    if rows != [] {
      var init := rows[..|rows| - 1];
      NothingPresentSubmitsAll(files, pathsOf, init);
    }
  }

  /** On a host where every row is complete, no job is submitted and every
      row is logged as skipped, in row order. */
  lemma {:induction false} AllPresentSubmitsNone(files: set<Path>, pathsOf: Job -> SegmentPaths, rows: seq<Row>)
    requires forall k :: 0 <= k < |rows| ==> Skips(files, pathsOf, rows[k])
    ensures var plan := Schedule(files, pathsOf, rows);
      plan.jobs == []
      && |plan.log| == |rows|
      && forall k :: 0 <= k < |rows| ==>
           plan.log[k] == AlreadyDownloaded(JobOf(rows[k]).ytid, JobOf(rows[k]).start, JobOf(rows[k]).end)
    decreases |rows|
  {
    if rows != [] {
      var init := rows[..|rows| - 1];
      AllPresentSubmitsNone(files, pathsOf, init);
    }
  }

  /** A start time written with minutes and seconds below 60 names its offset
      uniquely: two such rows get the same start offset if and only if they
      give the same hours, minutes and seconds. */
  lemma ClockOffsetInjective(a: Row, b: Row)
    requires 0 <= a.minutes < 60 && 0 <= a.seconds < 60
    requires 0 <= b.minutes < 60 && 0 <= b.seconds < 60
    ensures StartOffset(a) == StartOffset(b)
        <==> a.hours == b.hours && a.minutes == b.minutes && a.seconds == b.seconds
  {
  }

  /** Rows with minutes and seconds below 60 get the same job iff they are
      the same row; every job lasts `SegmentSeconds`. */
  lemma JobOfInjective(a: Row, b: Row)
    requires 0 <= a.minutes < 60 && 0 <= a.seconds < 60
    requires 0 <= b.minutes < 60 && 0 <= b.seconds < 60
    ensures JobOf(a) == JobOf(b) <==> a == b
    ensures JobOf(a).end - JobOf(a).start == SegmentSeconds
  {
    ClockOffsetInjective(a, b);
  }

  /** The skip test looks at the very files the worker writes for that row:
      with a well-formed id, a resolved stream and h264, the worker returns
      the video and audio paths of `JobPaths`; with a malformed id it returns
      `(None, None)` having deleted all three, so the row is not skipped on
      the next run. */
  lemma SkipTestMatchesWorker(svc: Services, cfg: MediaConfig, ffmpegPath: Path, dataDir: Path,
                              r: Row, w: Snapshot)
    ensures var j := JobOf(r);
      var p := JobPaths(svc.mediaName, dataDir, cfg, j);
      var a := Acquire(svc, cfg, ffmpegPath, j.ytid, j.start, j.end, dataDir, w);
      (|r.ytid| == 11 && svc.streamUrl(r.ytid).Some? && cfg.videoCodec == "h264" ==>
         a.result == Ok(Fetched(p.video, p.audio)))
      && (|r.ytid| != 11 ==> a.result == Ok(Malformed) && !AllPresent(a.world.files, p))
  {
    var j := JobOf(r);
    if |r.ytid| == 11 && svc.streamUrl(r.ytid).Some? && cfg.videoCodec == "h264" {
      CallOrder(svc, cfg, ffmpegPath, j.ytid, j.start, j.end, dataDir, w);
    }
    if |r.ytid| != 11 {
      EarlyExitAfterCleanup(svc, cfg, ffmpegPath, j.ytid, j.start, j.end, dataDir, w);
    }
  }
}
