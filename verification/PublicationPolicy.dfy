/**
 * The policy decisions of publication on any destination state, reached by these runs or not, and
 * what they come to on reached ones.
 */
module PublicationPolicy {
  import opened Prelude
  import opened Publication
  import opened PublicationSafety

  // ----- assets of a descriptor --------------------------------------------

  lemma GrownByOne<K, V>(m: map<K, V>, k: K, v: V)
    ensures |m[k := v]| == |m| + (if k in m then 0 else 1)
  {
    assert m[k := v].Keys == m.Keys + {k};
    if k in m {
      assert m.Keys + {k} == m.Keys;
    }
  }

  /**
   * A descriptor passes its check exactly when its release has two assets more than archives: the
   * archives as they are, the checksum list of those archives, and the descriptor itself.
   */
  lemma AssetsAreDistinct(d: Descriptor)
    ensures CheckDescriptor(d) <==> |ReleaseAssets(d)| == |d.stable.archives| + 2
    ensures CheckDescriptor(d) ==>
              && (forall name :: name in d.stable.archives ==>
                                   name in ReleaseAssets(d) && ReleaseAssets(d)[name] == d.stable.archives[name])
              && "SHA256SUMS" in ReleaseAssets(d) && ReleaseAssets(d)["SHA256SUMS"] == Sha(Checksums(d.stable.archives))
              && "RELEASE.json" in ReleaseAssets(d) && ReleaseAssets(d)["RELEASE.json"] == Sha(Canonical(d))
  {
    var archives := d.stable.archives;
    GrownByOne(archives, SHA256SUMS, Sha(Checksums(archives)));
    var more := archives[SHA256SUMS := Sha(Checksums(archives))];
    GrownByOne(more, RELEASE_JSON, Sha(Canonical(d)));
    assert SHA256SUMS[0] != RELEASE_JSON[0];
  }

  // ----- publication_action ------------------------------------------------

  function Digests(assets: map<string, Bytes>): map<string, Digest> { map name | name in assets :: Sha(assets[name]) }

  /** A release begun for `d`, as the policy compares it. */
  function Seen(r: Release, d: Descriptor): Existing { Existing(r.tag, r.target, r.draft, d, Digests(r.assets)) }

  /** The digests of a release begun for `d` are those `d` demands, all of them once it is published. */
  lemma DigestsFit(w: World, r: Release, d: Descriptor)
    requires OriginOf(w, r, d)
    ensures forall name :: name in Digests(r.assets) ==>
                             name in ReleaseAssets(d) && Digests(r.assets)[name] == ReleaseAssets(d)[name]
    ensures !r.draft ==> Digests(r.assets) == ReleaseAssets(d)
  {
    if !r.draft {
      assert Digests(r.assets).Keys == ReleaseAssets(d).Keys;
    }
  }

  /**
   * `publication_action` over a release any runs left, begun for `d`: nothing unless the stable
   * content agrees; then a draft is resumed only by its very descriptor and once that is uploaded,
   * and a published release is already there. Without a release the action is to create.
   */
  lemma ActionOnReached(w: World, r: Release, d: Descriptor, desired: Descriptor)
    requires OriginOf(w, r, d) && CheckDescriptor(desired)
    ensures PublicationAction(None, desired) == Some(Creates)
    ensures PublicationAction(Some(Seen(r, d)), desired) ==
              if d.stable != desired.stable then None
              else if !r.draft then Some(AlreadyThere)
              else if d == desired && r.assets != map[] then Some(Resumes)
              else None
  {
    DigestsFit(w, r, d);
    assert RELEASE_JSON in Digests(r.assets) <==> r.assets != map[];
  }

  // ----- the plan on any state ---------------------------------------------

  /**
   * A release that may be continued for `desired`: numbered, and in every part what the signed
   * descriptor `d` recorded in its body demands. Only a published body may have been reworded.
   */
  predicate Acceptable(w: World, r: Release, d: Descriptor, desired: Descriptor) {
    && CheckDescriptor(d) && w.signed(d) && d.stable == desired.stable
    && r.id != 0 && r.tag == d.stable.tag && r.target == d.stable.source
    && w.bodyFor(d).Some?
    && (if r.draft then r.body == w.bodyFor(d).value
        else r.body == w.bodyFor(d).value || w.amended(r.body, w.bodyFor(d).value))
    && (forall name :: name in r.assets ==> name in ReleaseAssets(d) && Sha(r.assets[name]) == ReleaseAssets(d)[name])
    && (if r.draft then r.assets == map[] || "RELEASE.json" in r.assets else r.assets.Keys == ReleaseAssets(d).Keys)
  }

  lemma FoundIsRecorded(w: World, r: Release, d: Descriptor)
    requires CheckState(w, r, d) && RELEASE_JSON in r.assets
    ensures FromAsset(r.assets[RELEASE_JSON]) == Some(d) && w.recorded(r.body) == Some(d)
  {
    assert Sha(r.assets[RELEASE_JSON]) == Sha(Canonical(d));
  }

  lemma AcceptableIsChecked(w: World, r: Release, d: Descriptor, desired: Descriptor)
    requires w.recorded(r.body) == Some(d)
    ensures Acceptable(w, r, d, desired) <==>
            && CheckDescriptor(d) && w.signed(d) && d.stable == desired.stable && CheckState(w, r, d)
            && (RELEASE_JSON in r.assets || (r.draft && r.assets == map[]))
  {
    assert RELEASE_JSON in ReleaseAssets(d);
  }

  lemma SameContentPasses(r: Release, d: Descriptor, desired: Descriptor)
    requires CheckDescriptor(desired) && CheckDescriptor(d) && r.tag == d.stable.tag && r.target == d.stable.source
    ensures PublicationAction(Some(Existing(r.tag, r.target, false, d, ReleaseAssets(d))), desired) ==
              if d.stable == desired.stable then Some(AlreadyThere) else None
  {
  }

  /**
   * Over any destination at all, a release under the tag stops the run unless it is acceptable;
   * the descriptor read from the uploaded asset and the one read from the body then agree, a
   * published release is reported and a draft is resumed under that descriptor.
   */
  lemma PlanOnAnyState(w: World, dest: Dest, job: Job)
    requires GoodJob(job) && job.desired.stable.tag in dest.releases
    ensures var r := dest.releases[job.desired.stable.tag];
            var d := w.recorded(r.body);
            MakePlan(w, dest, job) ==
              if d.None? || !Acceptable(w, r, d.value, job.desired) then Stop(Failed)
              else if !r.draft then Stop(AlreadyPublished)
              else Go(Resumes, d.value, job.files[RELEASE_JSON := Canonical(d.value)])
  {
    var r := dest.releases[job.desired.stable.tag];
    var found := if RELEASE_JSON in r.assets then FromAsset(r.assets[RELEASE_JSON]) else w.recorded(r.body);
    if found.Some? && CheckState(w, r, found.value) {
      if RELEASE_JSON in r.assets {
        FoundIsRecorded(w, r, found.value);
      }
    }
    var d := w.recorded(r.body);
    if d.Some? {
      AcceptableIsChecked(w, r, d.value, job.desired);
      if CheckState(w, r, d.value) {
        if RELEASE_JSON in r.assets {
          FoundIsRecorded(w, r, d.value);
        }
        if CheckDescriptor(d.value) {
          SameContentPasses(r, d.value, job.desired);
          if d.value.stable == job.desired.stable {
            OriginalCompletes(d.value, job.desired, job.files);
          }
        }
      }
    }
  }

  /** A create response is used exactly when it is the numbered, empty draft that was asked for. */
  lemma ResponseIsBound(w: World, response: Release, d: Descriptor)
    ensures CreatedReleaseId(w, response, d) ==
              if response.id != 0 && w.bodyFor(d).Some? && response == Draft(response.id, d, w.bodyFor(d).value)
              then Some(response.id) else None
  {
  }

  // ----- what a verdict means ----------------------------------------------

  /** The release under the descriptor's tag is published and everything `d` demands. */
  predicate Out(w: World, dest: Dest, d: Descriptor) {
    && d.stable.tag in dest.releases && !dest.releases[d.stable.tag].draft
    && CheckState(w, dest.releases[d.stable.tag], d) && w.signed(d)
  }

  lemma {:induction false} UploadsPublish(w: World, dest: Dest, d: Descriptor, files: map<string, Bytes>,
                                          order: seq<string>, script: seq<Fault>, k: nat)
    requires d.stable.tag in dest.releases && forall i :: 0 <= i < |order| ==> order[i] in files
    ensures var t := UploadStage(w, dest, d, files, order, script, k);
            && t.verdict in {Published, Failed}
            && (t.verdict == Published ==> Out(w, DoAll(w, dest, t.calls), d))
    decreases |order|
  {
    var tag := d.stable.tag;
    if order == [] {
      Prepend(w, dest, Publish(tag), FaultAt(script, k), []);
    } else if order[0] in dest.releases[tag].assets {
      UploadsPublish(w, dest, d, files, order[1..], script, k);
    } else {
      var op, fault := Upload(tag, order[0], files[order[0]]), FaultAt(script, k);
      var dest' := Effect(w, dest, op, fault);
      UploadsPublish(w, dest', d, files, order[1..], script, k + 1);
      Prepend(w, dest, op, fault, UploadStage(w, dest', d, files, order[1..], script, k + 1).calls);
    }
  }

  lemma CreationPublishes(w: World, dest: Dest, d: Descriptor, files: map<string, Bytes>, order: seq<string>, script: seq<Fault>)
    requires d.stable.tag !in dest.releases && forall i :: 0 <= i < |order| ==> order[i] in files
    ensures var t := CreateStage(w, dest, d, files, order, script);
            && t.verdict in {Published, Failed}
            && (t.verdict == Published ==> Out(w, DoAll(w, dest, t.calls), d))
  {
    if w.bodyFor(d).Some? {
      var op, fault := Create(d, w.bodyFor(d).value), FaultAt(script, 0);
      var dest' := Effect(w, dest, op, fault);
      if d.stable.tag in dest'.releases {
        UploadsPublish(w, dest', d, files, order, script, 1);
        Prepend(w, dest, op, fault, UploadStage(w, dest', d, files, order, script, 1).calls);
      }
    }
  }

  /**
   * On any destination and under any faults: `Published` is reported only with the release out,
   * under a signed descriptor of the same stable content; `AlreadyPublished` only for one that was
   * out before, with nothing attempted; a plan only by a dry run; and a job that does not pass its
   * own checks fails with nothing attempted.
   */
  lemma VerdictsAreTrue(w: World, dest: Dest, job: Job, script: seq<Fault>)
    requires Posed(job)
    ensures var t := Run(w, dest, job, script);
            && (t.verdict == Published ==>
                  exists d: Descriptor :: d.stable == job.desired.stable && Out(w, DoAll(w, dest, t.calls), d))
            && (t.verdict == AlreadyPublished ==>
                  t.calls == [] && exists d: Descriptor :: d.stable == job.desired.stable && Out(w, dest, d))
            && (t.verdict.Planned? ==> job.dryRun && t.calls == [])
            && (!GoodJob(job) ==> t == Trace(Failed, []))
  {
    var tag, plan := job.desired.stable.tag, MakePlan(w, dest, job);
    if GoodJob(job) {
      if tag in dest.releases {
        PlanOnAnyState(w, dest, job);
        PlanToResume(w, dest, job);
        var d := w.recorded(dest.releases[tag].body);
        if d.Some? {
          AcceptableIsChecked(w, dest.releases[tag], d.value, job.desired);
        }
      }
      if plan.Go? && !job.dryRun && w.signed(plan.desired) {
        if tag in dest.releases {
          UploadsPublish(w, dest, plan.desired, plan.files, job.order, script, 1);
        } else {
          CreationPublishes(w, dest, plan.desired, plan.files, job.order, script);
        }
      }
    }
  }
}
