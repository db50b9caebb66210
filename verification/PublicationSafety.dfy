/**
 * What publication can be relied on for: over any runs, with any faults, the destination only
 * ever gains; and from whatever state they leave, one undisturbed rerun settles it.
 */
module PublicationSafety {
  import opened Prelude
  import opened Publication

  // ----- every mutation is an immutable step -------------------------------

  /**
   * The mutations allowed: a draft is created only under a tag without release and for a verified
   * descriptor, with its rendered body; an asset is added only to a draft that lacks it, with the digest its recorded
   * descriptor demands, the descriptor itself before anything else; and a draft is published only
   * once its assets are exactly those of its recorded descriptor.
   */
  predicate Legal(w: World, dest: Dest, op: Op) {
    match op
    case Create(d, body) =>
      CheckDescriptor(d) && w.signed(d) && w.bodyFor(d) == Some(body) && d.stable.tag !in dest.releases
    case Upload(tag, name, bytes) =>
      && tag in dest.releases
      && var r := dest.releases[tag];
         && r.draft
         && name !in r.assets
         && (name != RELEASE_JSON ==> RELEASE_JSON in r.assets)
         && w.recorded(r.body).Some?
         && var expected := ReleaseAssets(w.recorded(r.body).value);
            name in expected && Sha(bytes) == expected[name]
    case Publish(tag) =>
      && tag in dest.releases
      && var r := dest.releases[tag];
         && r.draft
         && w.recorded(r.body).Some?
         && CheckFiles(w.recorded(r.body).value, r.assets, true)
  }

  predicate LegalAll(w: World, dest: Dest, calls: seq<Call>)
    decreases |calls|
  {
    calls == [] || (Legal(w, dest, calls[0].op) && LegalAll(w, Effect(w, dest, calls[0].op, calls[0].fault), calls[1..]))
  }

  /** What was there before a legal step is there after it, byte for byte; publication is final. */
  predicate Preserved(before: Release, after: Release) {
    && after.(draft := before.draft, assets := before.assets) == before
    && before.assets.Keys <= after.assets.Keys
    && (forall name :: name in before.assets ==> after.assets[name] == before.assets[name])
    && (!before.draft ==> after == before)
  }

  lemma LegalPreserves(w: World, dest: Dest, op: Op, tag: string)
    requires Legal(w, dest, op) && tag in dest.releases
    ensures tag in Do(w, dest, op).releases
    ensures Preserved(dest.releases[tag], Do(w, dest, op).releases[tag])
  {
  }

  lemma {:induction false} LegalAllPreserves(w: World, dest: Dest, calls: seq<Call>, tag: string)
    requires LegalAll(w, dest, calls) && tag in dest.releases
    ensures tag in DoAll(w, dest, calls).releases
    ensures Preserved(dest.releases[tag], DoAll(w, dest, calls).releases[tag])
    decreases |calls|
  {
    if calls != [] {
      LegalPreserves(w, dest, calls[0].op, tag);
      LegalAllPreserves(w, Effect(w, dest, calls[0].op, calls[0].fault), calls[1..], tag);
    }
  }

  // ----- the destination invariant -----------------------------------------

  /** Release `r` was begun for descriptor `d`, and everything in it follows from `d`. */
  predicate OriginOf(w: World, r: Release, d: Descriptor) {
    && CheckDescriptor(d) && w.signed(d)
    && d.stable.tag == r.tag && d.stable.source == r.target
    && Some(r.body) == w.bodyFor(d)
    && CheckFiles(d, r.assets, !r.draft)
    && (r.assets == map[] || RELEASE_JSON in r.assets)
    && (!r.draft ==> Recoverable(w, d))
  }

  ghost predicate ReleaseInv(w: World, tag: string, r: Release) {
    r.tag == tag && r.id > 0 && exists d: Descriptor :: OriginOf(w, r, d)
  }

  ghost predicate DestInv(w: World, dest: Dest) {
    forall tag :: tag in dest.releases ==> ReleaseInv(w, tag, dest.releases[tag])
  }

  lemma OriginIsRecorded(w: World, r: Release, d: Descriptor)
    requires Honest(w) && OriginOf(w, r, d) && w.recorded(r.body).Some?
    ensures w.recorded(r.body) == Some(d)
  {
  }

  lemma UploadKeepsOrigin(w: World, dest: Dest, op: Op, d: Descriptor)
    requires Honest(w) && op.Upload? && Legal(w, dest, op) && OriginOf(w, dest.releases[op.tag], d)
    ensures OriginOf(w, Do(w, dest, op).releases[op.tag], d)
  {
    OriginIsRecorded(w, dest.releases[op.tag], d);
  }

  lemma PublishKeepsOrigin(w: World, dest: Dest, op: Op, d: Descriptor)
    requires Honest(w) && op.Publish? && Legal(w, dest, op) && OriginOf(w, dest.releases[op.tag], d)
    ensures OriginOf(w, Do(w, dest, op).releases[op.tag], d)
  {
    OriginIsRecorded(w, dest.releases[op.tag], d);
  }

  lemma LegalKeepsInv(w: World, dest: Dest, op: Op)
    requires Honest(w) && DestInv(w, dest) && Legal(w, dest, op)
    ensures DestInv(w, Do(w, dest, op))
  {
    var dest' := Do(w, dest, op);
    var touched := if op.Create? then op.d.stable.tag else op.tag;
    forall tag | tag in dest'.releases ensures ReleaseInv(w, tag, dest'.releases[tag]) {
      if tag != touched {
        assert ReleaseInv(w, tag, dest.releases[tag]);
      } else if op.Create? {
        assert OriginOf(w, dest'.releases[tag], op.d);
      } else {
        assert ReleaseInv(w, tag, dest.releases[tag]);
        var d: Descriptor :| OriginOf(w, dest.releases[tag], d);
        if op.Upload? {
          UploadKeepsOrigin(w, dest, op, d);
        } else {
          PublishKeepsOrigin(w, dest, op, d);
        }
      }
    }
  }

  lemma {:induction false} LegalAllKeepInv(w: World, dest: Dest, calls: seq<Call>)
    requires Honest(w) && DestInv(w, dest) && LegalAll(w, dest, calls)
    ensures DestInv(w, DoAll(w, dest, calls))
    decreases |calls|
  {
    if calls != [] {
      LegalKeepsInv(w, dest, calls[0].op);
      LegalAllKeepInv(w, Effect(w, dest, calls[0].op, calls[0].fault), calls[1..]);
    }
  }

  // ----- every run is legal ------------------------------------------------

  lemma Prepend(w: World, dest: Dest, op: Op, fault: Fault, rest: seq<Call>)
    ensures var dest', calls := Effect(w, dest, op, fault), [Call(op, fault)] + rest;
            && DoAll(w, dest, calls) == DoAll(w, dest', rest)
            && (Legal(w, dest, op) && LegalAll(w, dest', rest) ==> LegalAll(w, dest, calls))
  {
    assert ([Call(op, fault)] + rest)[1..] == rest;
  }

  lemma {:induction false} UploadStageIsLegal(w: World, dest: Dest, d: Descriptor, files: map<string, Bytes>,
                                              order: seq<string>, script: seq<Fault>, k: nat)
    requires d.stable.tag in dest.releases
    requires forall i :: 0 <= i < |order| ==> order[i] in files
    requires CheckFiles(d, files, true)
    requires CheckState(w, dest.releases[d.stable.tag], d) && dest.releases[d.stable.tag].draft
    requires RELEASE_JSON in dest.releases[d.stable.tag].assets || (order != [] && order[0] == RELEASE_JSON)
    ensures LegalAll(w, dest, UploadStage(w, dest, d, files, order, script, k).calls)
    decreases |order|
  {
    var tag := d.stable.tag;
    if order != [] {
      if order[0] in dest.releases[tag].assets {
        UploadStageIsLegal(w, dest, d, files, order[1..], script, k);
      } else {
        var op, fault := Upload(tag, order[0], files[order[0]]), FaultAt(script, k);
        assert Legal(w, dest, op);
        var dest' := Effect(w, dest, op, fault);
        if Confirmed(w, dest', d, order[0], fault) {
          UploadStageIsLegal(w, dest', d, files, order[1..], script, k + 1);
          Prepend(w, dest, op, fault, UploadStage(w, dest', d, files, order[1..], script, k + 1).calls);
        } else {
          Prepend(w, dest, op, fault, []);
        }
      }
    }
  }

  lemma CreateStageIsLegal(w: World, dest: Dest, d: Descriptor, files: map<string, Bytes>, order: seq<string>,
                           script: seq<Fault>)
    requires d.stable.tag !in dest.releases
    requires UploadOrder(files, order) && CheckFiles(d, files, true)
    requires CheckDescriptor(d) && w.signed(d)
    ensures LegalAll(w, dest, CreateStage(w, dest, d, files, order, script).calls)
  {
    if w.bodyFor(d).Some? {
      var op, fault := Create(d, w.bodyFor(d).value), FaultAt(script, 0);
      var dest' := Effect(w, dest, op, fault);
      assert Legal(w, dest, op);
      if Takes(fault) && Survives(fault) && CheckState(w, dest'.releases[d.stable.tag], d) {
        UploadStageIsLegal(w, dest', d, files, order, script, 1);
        Prepend(w, dest, op, fault, UploadStage(w, dest', d, files, order, script, 1).calls);
      } else {
        Prepend(w, dest, op, fault, []);
      }
    }
  }

  lemma ResumeKeepsOrder(files: map<string, Bytes>, bytes: Bytes, order: seq<string>)
    requires UploadOrder(files, order)
    ensures UploadOrder(files[RELEASE_JSON := bytes], order)
  {
    assert order[0] in order;
  }

  /** Whatever the script, a run attempts only legal mutations, refused ones included; a dry run attempts none. */
  lemma RunIsLegal(w: World, dest: Dest, job: Job, script: seq<Fault>)
    requires Posed(job)
    ensures LegalAll(w, dest, Run(w, dest, job, script).calls)
    ensures job.dryRun ==> Run(w, dest, job, script).calls == []
  {
    var plan := MakePlan(w, dest, job);
    if plan.Go? && !job.dryRun && w.signed(plan.desired) {
      if plan.desired.stable.tag !in dest.releases {
        PlanToCreate(w, dest, job);
        CreateStageIsLegal(w, dest, plan.desired, plan.files, job.order, script);
      } else {
        PlanToResume(w, dest, job);
        UploadStageIsLegal(w, dest, plan.desired, plan.files, job.order, script, 1);
      }
    }
  }

  lemma PlanToCreate(w: World, dest: Dest, job: Job)
    requires Posed(job)
    ensures var plan := MakePlan(w, dest, job);
            plan.Go? && plan.desired.stable.tag !in dest.releases ==>
              plan == Go(Creates, job.desired, job.files)
  {
  }

  lemma PlanToResume(w: World, dest: Dest, job: Job)
    requires Posed(job)
    ensures var plan := MakePlan(w, dest, job);
            plan.Go? && job.desired.stable.tag in dest.releases ==>
              && plan.desired.stable == job.desired.stable
              && CheckState(w, dest.releases[job.desired.stable.tag], plan.desired)
              && dest.releases[job.desired.stable.tag].draft
              && plan.files == job.files[RELEASE_JSON := Canonical(plan.desired)]
              && CheckFiles(plan.desired, plan.files, true)
              && UploadOrder(plan.files, job.order)
              && w.signed(plan.desired)
  {
    var plan := MakePlan(w, dest, job);
    if plan.Go? && job.desired.stable.tag in dest.releases {
      ResumeKeepsOrder(job.files, Canonical(plan.desired), job.order);
    }
  }

  // ----- any number of runs ------------------------------------------------

  datatype Attempt = Attempt(job: Job, script: seq<Fault>)

  predicate PosedAll(attempts: seq<Attempt>) {
    forall i :: 0 <= i < |attempts| ==> Posed(attempts[i].job)
  }

  function RunAll(w: World, dest: Dest, attempts: seq<Attempt>): Dest
    requires PosedAll(attempts)
    decreases |attempts|
  {
    if attempts == [] then dest
    else
      var last := attempts[|attempts| - 1];
      var before := RunAll(w, dest, attempts[..|attempts| - 1]);
      RunDest(w, before, last.job, last.script)
  }

  const EMPTY: Dest := Dest(map[], 0)

  /** Each draft any runs leave is empty or holds its descriptor, and holds nothing foreign to it. */
  lemma {:induction false} RunsKeepInv(w: World, attempts: seq<Attempt>)
    requires Honest(w) && PosedAll(attempts)
    ensures DestInv(w, RunAll(w, EMPTY, attempts))
    decreases |attempts|
  {
    if attempts != [] {
      var last := attempts[|attempts| - 1];
      RunsKeepInv(w, attempts[..|attempts| - 1]);
      var before := RunAll(w, EMPTY, attempts[..|attempts| - 1]);
      RunIsLegal(w, before, last.job, last.script);
      LegalAllKeepInv(w, before, Run(w, before, last.job, last.script).calls);
    }
  }

  /**
   * Immutability over whole histories: whatever a history of runs leaves under a tag, no further
   * runs, however they fail, replace or remove any asset of it or alter a published release.
   */
  lemma {:induction false} HistoryPreserves(w: World, dest: Dest, attempts: seq<Attempt>, tag: string)
    requires PosedAll(attempts) && tag in dest.releases
    ensures tag in RunAll(w, dest, attempts).releases
    ensures Preserved(dest.releases[tag], RunAll(w, dest, attempts).releases[tag])
    decreases |attempts|
  {
    if attempts != [] {
      var last := attempts[|attempts| - 1];
      HistoryPreserves(w, dest, attempts[..|attempts| - 1], tag);
      var before := RunAll(w, dest, attempts[..|attempts| - 1]);
      RunIsLegal(w, before, last.job, last.script);
      LegalAllPreserves(w, before, Run(w, before, last.job, last.script).calls, tag);
    }
  }

  // ----- convergence -------------------------------------------------------

  /** Equal digests mean equal bytes, so a complete set of files is determined by its descriptor. */
  lemma CompleteFilesAreUnique(d: Descriptor, files: map<string, Bytes>, assets: map<string, Bytes>)
    requires CheckFiles(d, files, true) && CheckFiles(d, assets, true)
    ensures files == assets
  {
    forall name | name in files ensures name in assets && files[name] == assets[name] {
      assert Sha(files[name]) == Sha(assets[name]);
    }
  }

  lemma AddedAssetFits(w: World, dest: Dest, d: Descriptor, files: map<string, Bytes>, name: string)
    requires d.stable.tag in dest.releases && name in files
    requires CheckFiles(d, files, true)
    requires CheckState(w, dest.releases[d.stable.tag], d) && dest.releases[d.stable.tag].draft
    ensures var dest' := Do(w, dest, Upload(d.stable.tag, name, files[name]));
            && d.stable.tag in dest'.releases
            && dest'.releases[d.stable.tag].draft
            && CheckState(w, dest'.releases[d.stable.tag], d)
            && dest'.releases[d.stable.tag].assets.Keys == dest.releases[d.stable.tag].assets.Keys + {name}
  {
  }

  /** Undisturbed, the upload loop fills in exactly what is missing and publishes. */
  lemma {:induction false} UploadsConverge(w: World, dest: Dest, d: Descriptor, files: map<string, Bytes>,
                                           order: seq<string>, k: nat)
    requires d.stable.tag in dest.releases && w.signed(d)
    requires forall i :: 0 <= i < |order| ==> order[i] in files
    requires CheckFiles(d, files, true)
    requires CheckState(w, dest.releases[d.stable.tag], d) && dest.releases[d.stable.tag].draft
    requires forall name :: name in files ==> name in order || name in dest.releases[d.stable.tag].assets
    ensures var t := UploadStage(w, dest, d, files, order, [], k);
            var end := DoAll(w, dest, t.calls);
            && t.verdict == Published
            && d.stable.tag in end.releases
            && end.releases[d.stable.tag] == dest.releases[d.stable.tag].(draft := false, assets := files)
    decreases |order|
  {
    var tag := d.stable.tag;
    var r := dest.releases[tag];
    if order == [] {
      assert r.assets.Keys == files.Keys;
      CompleteFilesAreUnique(d, files, r.assets);
      Prepend(w, dest, Publish(tag), Fine, []);
    } else if order[0] in r.assets {
      UploadsConverge(w, dest, d, files, order[1..], k);
    } else {
      var op := Upload(tag, order[0], files[order[0]]);
      AddedAssetFits(w, dest, d, files, order[0]);
      UploadsConverge(w, Do(w, dest, op), d, files, order[1..], k + 1);
      Prepend(w, dest, op, Fine, UploadStage(w, Do(w, dest, op), d, files, order[1..], [], k + 1).calls);
    }
  }

  lemma CreateConverges(w: World, dest: Dest, d: Descriptor, files: map<string, Bytes>, order: seq<string>)
    requires d.stable.tag !in dest.releases && w.signed(d)
    requires UploadOrder(files, order) && CheckFiles(d, files, true)
    ensures var t := CreateStage(w, dest, d, files, order, []);
            var end := DoAll(w, dest, t.calls);
            && (t.verdict == Published <==> Recoverable(w, d))
            && t.verdict != AlreadyPublished
            && (Recoverable(w, d) ==>
                  && d.stable.tag in end.releases
                  && end.releases[d.stable.tag] == Draft(dest.nextId + 1, d, w.bodyFor(d).value).(draft := false, assets := files))
            && (w.bodyFor(d).None? ==> end == dest)
  {
    if Recoverable(w, d) {
      var op := Create(d, w.bodyFor(d).value);
      var dest' := Do(w, dest, op);
      UploadsConverge(w, dest', d, files, order, 1);
      Prepend(w, dest, op, Fine, UploadStage(w, dest', d, files, order, [], 1).calls);
    }
  }

  /** When the rerun of `job` has to end in a published release. */
  ghost predicate Settles(w: World, dest: Dest, job: Job) {
    var tag := job.desired.stable.tag;
    if tag !in dest.releases then
      w.signed(job.desired) && Recoverable(w, job.desired)
    else
      var original := w.recorded(dest.releases[tag].body);
      original.Some? && original.value.stable == job.desired.stable
  }

  predicate Succeeded(v: Verdict) { v.Published? || v.AlreadyPublished? }

  /** Same stable content and other evidence: the original descriptor completes with the new files. */
  lemma OriginalCompletes(original: Descriptor, desired: Descriptor, files: map<string, Bytes>)
    requires CheckDescriptor(desired) && CheckFiles(desired, files, true)
    requires original.stable == desired.stable
    ensures CheckFiles(original, files[RELEASE_JSON := Canonical(original)], true)
  {
  }

  lemma ReleasePlan(w: World, dest: Dest, job: Job)
    requires Honest(w) && DestInv(w, dest) && GoodJob(job)
    requires job.desired.stable.tag in dest.releases
    ensures var r := dest.releases[job.desired.stable.tag];
            var original := w.recorded(r.body);
            MakePlan(w, dest, job) ==
              (if !Settles(w, dest, job) then Stop(Failed)
               else if !r.draft then Stop(AlreadyPublished)
               else Go(Resumes, original.value, job.files[RELEASE_JSON := Canonical(original.value)]))
    ensures Settles(w, dest, job) ==>
              CheckState(w, dest.releases[job.desired.stable.tag], w.recorded(dest.releases[job.desired.stable.tag].body).value)
  {
    var tag := job.desired.stable.tag;
    var r := dest.releases[tag];
    assert ReleaseInv(w, tag, r);
    var d: Descriptor :| OriginOf(w, r, d);
    if w.recorded(r.body).Some? {
      OriginIsRecorded(w, r, d);
    }
    if RELEASE_JSON in r.assets {
      assert Sha(r.assets[RELEASE_JSON]) == Sha(Canonical(d));
    }
    if d.stable == job.desired.stable {
      OriginalCompletes(d, job.desired, job.files);
    }
  }

  /**
   * Convergence. Take any history of runs from an empty destination: any jobs, any faults, any
   * crashes. An undisturbed rerun then succeeds exactly when there is either no release under its
   * tag and its own descriptor is verified and recoverable, or one whose recorded descriptor
   * agrees with it on the stable content, whatever build or publisher evidence either carries.
   * On success the release is published under the descriptor recorded first, with its body
   * unchanged and exactly the files that descriptor names; on failure an existing release is
   * left as it was.
   */
  lemma RerunSettles(w: World, attempts: seq<Attempt>, job: Job)
    requires Honest(w) && PosedAll(attempts) && GoodJob(job) && !job.dryRun
    ensures var dest := RunAll(w, EMPTY, attempts);
            var t := Run(w, dest, job, []);
            var end := DoAll(w, dest, t.calls);
            var tag := job.desired.stable.tag;
            && (Succeeded(t.verdict) <==> Settles(w, dest, job))
            && (Settles(w, dest, job) ==>
                  var original := if tag in dest.releases then w.recorded(dest.releases[tag].body).value else job.desired;
                  && tag in end.releases
                  && !end.releases[tag].draft
                  && Some(end.releases[tag].body) == w.bodyFor(original)
                  && end.releases[tag].assets == job.files[RELEASE_JSON := Canonical(original)])
            && (!Settles(w, dest, job) && tag in dest.releases ==> end == dest)
  {
    var dest := RunAll(w, EMPTY, attempts);
    RunsKeepInv(w, attempts);
    SettledFrom(w, dest, job);
  }

  lemma SettledFrom(w: World, dest: Dest, job: Job)
    requires Honest(w) && DestInv(w, dest) && GoodJob(job) && !job.dryRun
    ensures var t := Run(w, dest, job, []);
            var end := DoAll(w, dest, t.calls);
            var tag := job.desired.stable.tag;
            && (Succeeded(t.verdict) <==> Settles(w, dest, job))
            && (Settles(w, dest, job) ==>
                  var original := if tag in dest.releases then w.recorded(dest.releases[tag].body).value else job.desired;
                  && tag in end.releases
                  && !end.releases[tag].draft
                  && Some(end.releases[tag].body) == w.bodyFor(original)
                  && end.releases[tag].assets == job.files[RELEASE_JSON := Canonical(original)])
            && (!Settles(w, dest, job) && tag in dest.releases ==> end == dest)
  {
    var tag := job.desired.stable.tag;
    if tag !in dest.releases {
      SettledByCreating(w, dest, job);
    } else {
      ReleasePlan(w, dest, job);
      if Settles(w, dest, job) {
        SettledByResuming(w, dest, job);
      }
    }
  }

  lemma SettledByCreating(w: World, dest: Dest, job: Job)
    requires GoodJob(job) && !job.dryRun && job.desired.stable.tag !in dest.releases
    ensures var t := Run(w, dest, job, []);
            var end := DoAll(w, dest, t.calls);
            var tag := job.desired.stable.tag;
            && (Succeeded(t.verdict) <==> Settles(w, dest, job))
            && (Settles(w, dest, job) ==>
                  && tag in end.releases
                  && !end.releases[tag].draft
                  && Some(end.releases[tag].body) == w.bodyFor(job.desired)
                  && end.releases[tag].assets == job.files[RELEASE_JSON := Canonical(job.desired)])
  {
    if w.signed(job.desired) {
      CreateConverges(w, dest, job.desired, job.files, job.order);
      assert Sha(job.files[RELEASE_JSON]) == Sha(Canonical(job.desired));
    }
  }

  lemma SettledByResuming(w: World, dest: Dest, job: Job)
    requires Honest(w) && DestInv(w, dest) && GoodJob(job) && !job.dryRun
    requires job.desired.stable.tag in dest.releases && Settles(w, dest, job)
    ensures var t := Run(w, dest, job, []);
            var end := DoAll(w, dest, t.calls);
            var tag := job.desired.stable.tag;
            var original := w.recorded(dest.releases[tag].body).value;
            && Succeeded(t.verdict)
            && tag in end.releases
            && !end.releases[tag].draft
            && Some(end.releases[tag].body) == w.bodyFor(original)
            && end.releases[tag].assets == job.files[RELEASE_JSON := Canonical(original)]
  {
    var tag := job.desired.stable.tag;
    var r := dest.releases[tag];
    var original := w.recorded(r.body).value;
    var files := job.files[RELEASE_JSON := Canonical(original)];
    assert ReleaseInv(w, tag, r);
    var d: Descriptor :| OriginOf(w, r, d);
    OriginIsRecorded(w, r, d);
    ReleasePlan(w, dest, job);
    OriginalCompletes(original, job.desired, job.files);
    if r.draft {
      ResumeKeepsOrder(job.files, Canonical(original), job.order);
      UploadsConverge(w, dest, original, files, job.order, 1);
    } else {
      CompleteFilesAreUnique(original, files, r.assets);
    }
  }
}
