/**
 * One copy job: derive the output name from a fresh uuid, build the filter
 * plan, attach the non-empty filter chains to the transcoder invocation and,
 * when the transcoder reports completion, describe the new file.
 *
 * The transcoder itself is outside the model: the job hands it an
 * `Invocation`, and whether it signalled 'end' or 'error' is an input.
 */
module CopyJob {
  import opened Wrappers
  import opened Types
  import opened Sampler
  import opened Seqs
  import opened FilterChain

  const IdPrefix: string := "copy_"
  const UrlPrefix: string := "http://localhost:4000/output/"

  /** The first piece of the uuid split at '-': the text before its first '-', or all of it when there is none. */
  function LeadingSegment(uuid: string): (r: string)
    ensures r <= uuid
    ensures '-' !in r
    ensures r == uuid || uuid[|r|] == '-'
  {
    if uuid == [] || uuid[0] == '-' then []
    else [uuid[0]] + LeadingSegment(uuid[1..])
  }

  function UniqueId(uuid: string): string
  {
    IdPrefix + LeadingSegment(uuid)
  }

  /** The id followed by the extension of the uploaded file's original name. */
  function OutputFilename(uuid: string, ext: string): string
  {
    UniqueId(uuid) + ext
  }

  function OutputUrl(filename: string): string
  {
    UrlPrefix + filename
  }

  /**
   * What the transcoder is started with for one copy: the input file, the
   * video and audio chains when attached, and where the output goes
   * (path.join of the two is not modelled).
   */
  datatype Invocation = Invocation(
    input: string,
    videoChain: Option<string>,
    audioChain: Option<string>,
    outputDir: string,
    outputFilename: string)

  /**
   * The inputs every copy of one batch shares: the uploaded file, the output
   * directory, path.extname of the original name, the settings, and the
   * number formatter.
   */
  datatype Job = Job(inputPath: string, outputDir: string, ext: string, settings: ProcessSettings, fmt: Formatter)

  /**
   * A chain is attached exactly when there are filters; it is those filters
   * joined with ",", so it begins with the first of them.
   */
  function Chain(filters: seq<string>): (r: Option<string>)
    ensures r.None? <==> filters == []
    ensures r.Some? ==> filters[0] <= r.value
  {
    JoinStartsWithFirst(filters, ",");
    if |filters| > 0 then Some(Join(filters, ",")) else None
  }

  function CopyInvocation(job: Job, uuid: string, d: Draws): Invocation
  {
    var plan := Plan(job.settings, d, job.fmt);
    Invocation(job.inputPath, Chain(plan.videoFilters), Chain(plan.audioFilters),
               job.outputDir, OutputFilename(uuid, job.ext))
  }

  /** The record reported for a copy whose transcode completed. */
  function FileInfo(job: Job, uuid: string, d: Draws): GeneratedFileInfo
  {
    var filename := OutputFilename(uuid, job.ext);
    GeneratedFileInfo(UniqueId(uuid), filename, OutputUrl(filename), Summary(Plan(job.settings, d, job.fmt).logs))
  }

  /**
   * createUniqueCopy: resolves with the file's record when the transcoder
   * signals completion (`transcoded`), rejects (None) when it signals an error.
   */
  method CreateUniqueCopy(job: Job, uuid: string, d: Draws, transcoded: bool)
    returns (invocation: Invocation, result: Option<GeneratedFileInfo>)
    ensures invocation == CopyInvocation(job, uuid, d)
    ensures result == (if transcoded then Some(FileInfo(job, uuid, d)) else None)
  {
    var uniqueId := IdPrefix + LeadingSegment(uuid);
    var outputFilename := uniqueId + job.ext;

    var plan := BuildPlan(job.settings, d, job.fmt);

    var videoChain: Option<string> := None;
    if |plan.videoFilters| > 0 {
      videoChain := Some(Join(plan.videoFilters, ","));
    }
    var audioChain: Option<string> := None;
    if |plan.audioFilters| > 0 {
      audioChain := Some(Join(plan.audioFilters, ","));
    }
    invocation := Invocation(job.inputPath, videoChain, audioChain, job.outputDir, outputFilename);

    if transcoded {
      result := Some(GeneratedFileInfo(uniqueId, outputFilename, UrlPrefix + outputFilename, Summary(plan.logs)));
    } else {
      result := None;
    }
  }

  /** The video chain is attached exactly when some video step fires. */
  lemma VideoChainAttachedIff(job: Job, uuid: string, d: Draws)
    ensures var s := job.settings;
      (CopyInvocation(job, uuid, d).videoChain.Some? <==>
         s.brightness || s.contrast || s.saturation || s.rotation || s.zoom || (s.mirror && GetBool(d.mirror)))
  {
    FiredVideoSteps(job.settings, d);
  }

  /** The audio chain is attached exactly when an audio toggle is on. */
  lemma AudioChainAttachedIff(job: Job, uuid: string, d: Draws)
    ensures var s := job.settings;
      CopyInvocation(job, uuid, d).audioChain.Some? <==> (s.audioVolume || s.audioSpeed || s.audioPitch)
  {
    FiredAudioSteps(job.settings, d);
  }

  /**
   * The reported id is "copy_" and the uuid's leading segment, the filename is
   * that id and the original extension, and the URL is the fixed prefix and
   * the filename; the filename and URL can be taken apart again.
   */
  lemma FileInfoNaming(job: Job, uuid: string, d: Draws)
    ensures var info := FileInfo(job, uuid, d);
      && info.id[..|IdPrefix|] == IdPrefix
      && '-' !in info.id[|IdPrefix|..]
      && info.id[|IdPrefix|..] <= uuid
      && info.filename[..|info.id|] == info.id
      && info.filename[|info.id|..] == job.ext
      && info.url[..|UrlPrefix|] == UrlPrefix
      && info.url[|UrlPrefix|..] == info.filename
  {
  }

  /**
   * Two copies get the same file name (and URL) exactly when their uuids share
   * the leading segment: only that segment distinguishes outputs.
   */
  lemma {:induction false} OutputNamesCollideIff(u1: string, u2: string, ext: string)
    ensures OutputFilename(u1, ext) == OutputFilename(u2, ext) <==> LeadingSegment(u1) == LeadingSegment(u2)
    ensures (OutputUrl(OutputFilename(u1, ext)) == OutputUrl(OutputFilename(u2, ext)) <==>
               LeadingSegment(u1) == LeadingSegment(u2))
  {
    var f1, f2 := OutputFilename(u1, ext), OutputFilename(u2, ext);
    if f1 == f2 {
      var n1, n2 := |IdPrefix + LeadingSegment(u1)|, |IdPrefix + LeadingSegment(u2)|;
      assert n1 == n2 by { assert |f1| == n1 + |ext| && |f2| == n2 + |ext|; }
      assert LeadingSegment(u1) == f1[|IdPrefix|..n1];
      assert LeadingSegment(u2) == f2[|IdPrefix|..n2];
    }
    if OutputUrl(f1) == OutputUrl(f2) {
      assert f1 == OutputUrl(f1)[|UrlPrefix|..];
      assert f2 == OutputUrl(f2)[|UrlPrefix|..];
    }
  }
}
