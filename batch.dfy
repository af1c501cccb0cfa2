/**
 * The batch orchestrator: `copies` copy jobs, one after another, each awaited
 * before the next starts. A failed copy is dropped and the batch goes on; the
 * batch returns the records of the copies that completed, in attempt order.
 */
module Batch {
  import opened Wrappers
  import opened Types
  import opened Sampler
  import CopyJob

  /**
   * What the environment supplies for one attempt: the uuid it generates, the
   * random draws it consumes, and whether the transcoder signalled completion.
   */
  datatype Attempt = Attempt(uuid: string, draws: Draws, transcoded: bool)

  /** How many times the batch loop runs: `copies` when positive, otherwise never. */
  function AttemptCount(copies: int): nat
  {
    if copies > 0 then copies else 0
  }

  /** The indices, in increasing order, of the first `n` attempts that completed. */
  function Succeeded(attempts: nat -> Attempt, n: nat): seq<nat>
  {
    if n == 0 then []
    else Succeeded(attempts, n - 1) + (if attempts(n - 1).transcoded then [n - 1] else [])
  }

  /** How many of the first `n` attempts failed. */
  function FailedCount(attempts: nat -> Attempt, n: nat): nat
  {
    if n == 0 then 0
    else FailedCount(attempts, n - 1) + (if attempts(n - 1).transcoded then 0 else 1)
  }

  function InfoOf(job: CopyJob.Job, a: Attempt): GeneratedFileInfo
  {
    CopyJob.FileInfo(job, a.uuid, a.draws)
  }

  /** The records of the completed copies among the first `n` attempts, in attempt order. */
  function BatchResults(job: CopyJob.Job, attempts: nat -> Attempt, n: nat): seq<GeneratedFileInfo>
  {
    var ok := Succeeded(attempts, n);
    seq(|ok|, k requires 0 <= k < |ok| => InfoOf(job, attempts(ok[k])))
  }

  /** The transcoder invocations of the first `n` attempts, one per attempt. */
  function BatchInvocations(job: CopyJob.Job, attempts: nat -> Attempt, n: nat): seq<CopyJob.Invocation>
  {
    seq(n, i requires 0 <= i < n => CopyJob.CopyInvocation(job, attempts(i).uuid, attempts(i).draws))
  }

  /**
   * processVideoBatch: the sequential loop. Besides the results it returns the
   * invocations it handed to the transcoder, in order.
   */
  method ProcessVideoBatch(job: CopyJob.Job, attempts: nat -> Attempt)
    returns (results: seq<GeneratedFileInfo>, invocations: seq<CopyJob.Invocation>)
    ensures |invocations| == AttemptCount(job.settings.copies)
    ensures invocations == BatchInvocations(job, attempts, AttemptCount(job.settings.copies))
    ensures results == BatchResults(job, attempts, AttemptCount(job.settings.copies))
  {
    results, invocations := [], [];
    var i := 0;
    while i < job.settings.copies
      invariant 0 <= i <= AttemptCount(job.settings.copies)
      invariant invocations == BatchInvocations(job, attempts, i)
      invariant results == BatchResults(job, attempts, i)
    {
      var attempt := attempts(i);
      var invocation, outcome := CopyJob.CreateUniqueCopy(job, attempt.uuid, attempt.draws, attempt.transcoded);
      invocations := invocations + [invocation];
      match outcome {
        case Some(info) => results := results + [info];
        case None =>
      }
      i := i + 1;
    }
  }

  /**
   * The completed attempts are listed once each, in increasing order; every
   * completed attempt is listed, whatever failed before it.
   */
  lemma {:induction false} SucceededExactly(attempts: nat -> Attempt, n: nat)
    ensures forall k :: 0 <= k < |Succeeded(attempts, n)| ==>
      Succeeded(attempts, n)[k] < n && attempts(Succeeded(attempts, n)[k]).transcoded
    ensures forall k, l :: 0 <= k < l < |Succeeded(attempts, n)| ==> Succeeded(attempts, n)[k] < Succeeded(attempts, n)[l]
    ensures forall j :: 0 <= j < n && attempts(j).transcoded ==> j in Succeeded(attempts, n)
  {
    if n > 0 {
      SucceededExactly(attempts, n - 1);
    }
  }

  /** Each attempt either completes or fails: results plus failures make up all attempts. */
  lemma {:induction false} SucceededPlusFailed(attempts: nat -> Attempt, n: nat)
    ensures |Succeeded(attempts, n)| + FailedCount(attempts, n) == n
  {
    if n > 0 {
      SucceededPlusFailed(attempts, n - 1);
    }
  }

  /**
   * The batch result has between 0 and max(copies, 0) records: one per
   * attempt minus one per failure. All failing gives none, none failing gives
   * one per attempt.
   */
  lemma BatchResultCount(job: CopyJob.Job, attempts: nat -> Attempt)
    ensures var n := AttemptCount(job.settings.copies);
      && |BatchResults(job, attempts, n)| == n - FailedCount(attempts, n)
      && |BatchResults(job, attempts, n)| <= n
      && (FailedCount(attempts, n) == 0 ==> |BatchResults(job, attempts, n)| == n)
      && (FailedCount(attempts, n) == n ==> BatchResults(job, attempts, n) == [])
  {
    SucceededPlusFailed(attempts, AttemptCount(job.settings.copies));
  }

  /**
   * A failure never stops the batch: the record of every attempt that
   * completed is in the result, and the result holds nothing else.
   */
  lemma BatchResultsAreTheCompletedCopies(job: CopyJob.Job, attempts: nat -> Attempt, n: nat)
    ensures forall j :: 0 <= j < n && attempts(j).transcoded ==> InfoOf(job, attempts(j)) in BatchResults(job, attempts, n)
    ensures forall r :: r in BatchResults(job, attempts, n) ==>
      exists j :: 0 <= j < n && attempts(j).transcoded && r == InfoOf(job, attempts(j))
  {
    var ok := Succeeded(attempts, n);
    var results := BatchResults(job, attempts, n);
    SucceededExactly(attempts, n);
    forall j | 0 <= j < n && attempts(j).transcoded
      ensures InfoOf(job, attempts(j)) in results
    {
      var k :| 0 <= k < |ok| && ok[k] == j;
      assert results[k] == InfoOf(job, attempts(j));
    }
    forall r | r in results
      ensures exists j :: 0 <= j < n && attempts(j).transcoded && r == InfoOf(job, attempts(j))
    {
      var k :| 0 <= k < |results| && results[k] == r;
      assert ok[k] < n && attempts(ok[k]).transcoded;
    }
  }

  /** Every record's file name carries the original extension, whatever the uuids are. */
  lemma BatchFileExtensions(job: CopyJob.Job, attempts: nat -> Attempt, n: nat)
    ensures forall k :: 0 <= k < |BatchResults(job, attempts, n)| ==>
      var f := BatchResults(job, attempts, n)[k].filename;
      |f| >= |job.ext| && f[|f| - |job.ext|..] == job.ext
  {
  }

  /**
   * Records of attempts whose uuids have distinct leading segments have
   * distinct file names, so no completed copy overwrites another.
   */
  lemma BatchFileNames(job: CopyJob.Job, attempts: nat -> Attempt, n: nat)
    requires forall i, j :: 0 <= i < j < n ==>
      CopyJob.LeadingSegment(attempts(i).uuid) != CopyJob.LeadingSegment(attempts(j).uuid)
    ensures forall k, l :: 0 <= k < l < |BatchResults(job, attempts, n)| ==>
      BatchResults(job, attempts, n)[k].filename != BatchResults(job, attempts, n)[l].filename
  {
    var ok := Succeeded(attempts, n);
    var results := BatchResults(job, attempts, n);
    SucceededExactly(attempts, n);
    forall k, l | 0 <= k < l < |results|
      ensures results[k].filename != results[l].filename
    {
      assert ok[k] < ok[l] < n;
      CopyJob.OutputNamesCollideIff(attempts(ok[k]).uuid, attempts(ok[l]).uuid, job.ext);
    }
  }
}
