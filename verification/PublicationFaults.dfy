/**
 * What faults do to a run. A response lost after its mutation took effect is made good by reading
 * back, at every stage; a mutation refused, or a run that dies, ends it without success.
 */
module PublicationFaults {
  import opened Prelude
  import opened Publication

  predicate Benign(f: Fault) { f == Fine || f == Lost }

  predicate Unharmed(calls: seq<Call>) { forall i :: 0 <= i < |calls| ==> Benign(calls[i].fault) }

  /** Two traces that end alike: the same verdict and the same destination. */
  predicate Alike(w: World, dest: Dest, t: Trace, u: Trace) {
    t.verdict == u.verdict && DoAll(w, dest, t.calls) == DoAll(w, dest, u.calls)
  }

  lemma UnharmedTail(first: Call, rest: seq<Call>)
    ensures Unharmed([first] + rest) <==> Benign(first.fault) && Unharmed(rest)
  {
    var calls := [first] + rest;
    assert calls[0] == first;
    assert forall i :: 0 <= i < |rest| ==> calls[i + 1] == rest[i];
    if Benign(first.fault) && Unharmed(rest) {
      forall i | 0 <= i < |calls| ensures Benign(calls[i].fault) {
        assert i > 0 ==> calls[i] == rest[i - 1];
      }
    }
  }

  lemma PublishUnderFault(w: World, dest: Dest, d: Descriptor, fault: Fault)
    requires d.stable.tag in dest.releases && dest.releases[d.stable.tag].draft
    ensures var t := PublishStage(w, dest, d, fault);
            && (Unharmed(t.calls) ==> Alike(w, dest, t, PublishStage(w, dest, d, Fine)))
            && (!Unharmed(t.calls) ==> t.verdict == Failed)
            && t.verdict in {Published, Failed}
  {
    AfterAttempt(w, dest, Publish(d.stable.tag), fault, []);
    AfterAttempt(w, dest, Publish(d.stable.tag), Fine, []);
    assert Unharmed([Call(Publish(d.stable.tag), fault)]) <==> Benign(fault) by {
      assert [Call(Publish(d.stable.tag), fault)][0].fault == fault;
    }
  }

  /** The turn of the upload loop that uploads, under a fault and without one. */
  lemma UploadTurn(w: World, dest: Dest, d: Descriptor, files: map<string, Bytes>, order: seq<string>, script: seq<Fault>, k: nat)
    requires d.stable.tag in dest.releases && order != [] && dest.releases[d.stable.tag].draft
    requires forall i :: 0 <= i < |order| ==> order[i] in files
    requires CheckState(w, dest.releases[d.stable.tag], d) && order[0] !in dest.releases[d.stable.tag].assets
    ensures var op, fault := Upload(d.stable.tag, order[0], files[order[0]]), FaultAt(script, k);
            var dest' := Do(w, dest, op);
            var t := UploadStage(w, dest, d, files, order, script, k);
            && d.stable.tag in dest'.releases && dest'.releases[d.stable.tag].draft
            && (!Benign(fault) ==> t == Trace(Failed, [Call(op, fault)]))
            && (Benign(fault) && !Confirmed(w, dest', d, order[0], Fine) ==> t == Trace(Failed, [Call(op, fault)]))
            && (Benign(fault) && Confirmed(w, dest', d, order[0], Fine) ==>
                  var rest := UploadStage(w, dest', d, files, order[1..], script, k + 1);
                  t == Trace(rest.verdict, [Call(op, fault)] + rest.calls))
  {
  }

  /** A mutation that took effect, followed by runs that end alike. */
  lemma TurnUnderFault(w: World, dest: Dest, op: Op, fault: Fault, rest: Trace, calm: Trace)
    ensures Unharmed([Call(op, fault)] + rest.calls) <==> Benign(fault) && Unharmed(rest.calls)
    ensures Unharmed([Call(op, fault)]) <==> Benign(fault)
    ensures Benign(fault) ==> DoAll(w, dest, [Call(op, fault)]) == DoAll(w, dest, [Call(op, Fine)])
    ensures Benign(fault) && Alike(w, Do(w, dest, op), rest, calm) ==>
              Alike(w, dest, Trace(rest.verdict, [Call(op, fault)] + rest.calls), Trace(calm.verdict, [Call(op, Fine)] + calm.calls))
  {
    UnharmedTail(Call(op, fault), rest.calls);
    assert [Call(op, fault)][0].fault == fault;
    AfterAttempt(w, dest, op, fault, rest.calls);
    AfterAttempt(w, dest, op, Fine, calm.calls);
  }

  /** The upload loop under any script: as without faults if it met none that harm, and failed otherwise. */
  lemma {:induction false} UploadsUnderFaults(w: World, dest: Dest, d: Descriptor, files: map<string, Bytes>,
                                              order: seq<string>, script: seq<Fault>, k: nat)
    requires d.stable.tag in dest.releases && dest.releases[d.stable.tag].draft
    requires forall i :: 0 <= i < |order| ==> order[i] in files
    ensures var t := UploadStage(w, dest, d, files, order, script, k);
            && (Unharmed(t.calls) ==> Alike(w, dest, t, UploadStage(w, dest, d, files, order, [], k)))
            && (!Unharmed(t.calls) ==> t.verdict == Failed)
            && t.verdict in {Published, Failed}
    decreases |order|
  {
    if order == [] {
      PublishUnderFault(w, dest, d, FaultAt(script, k));
      assert FaultAt([], k) == Fine;
    } else if CheckState(w, dest.releases[d.stable.tag], d) {
      if order[0] in dest.releases[d.stable.tag].assets {
        UploadsUnderFaults(w, dest, d, files, order[1..], script, k);
      } else {
        UploadTurn(w, dest, d, files, order, script, k);
        UploadTurn(w, dest, d, files, order, [], k);
        UploadsUnderFaults(w, Do(w, dest, Upload(d.stable.tag, order[0], files[order[0]])), d, files, order[1..], script, k + 1);
        TurnUnderFault(w, dest, Upload(d.stable.tag, order[0], files[order[0]]), FaultAt(script, k),
                       UploadStage(w, Do(w, dest, Upload(d.stable.tag, order[0], files[order[0]])), d, files, order[1..], script, k + 1),
                       UploadStage(w, Do(w, dest, Upload(d.stable.tag, order[0], files[order[0]])), d, files, order[1..], [], k + 1));
      }
    }
  }

  lemma CreateUnderFaults(w: World, dest: Dest, d: Descriptor, files: map<string, Bytes>, order: seq<string>, script: seq<Fault>)
    requires d.stable.tag !in dest.releases
    requires forall i :: 0 <= i < |order| ==> order[i] in files
    ensures var t := CreateStage(w, dest, d, files, order, script);
            && (Unharmed(t.calls) ==> Alike(w, dest, t, CreateStage(w, dest, d, files, order, [])))
            && (!Unharmed(t.calls) ==> t.verdict == Failed)
  {
    if w.bodyFor(d).Some? {
      var op, fault := Create(d, w.bodyFor(d).value), FaultAt(script, 0);
      var dest' := Do(w, dest, op);
      UploadsUnderFaults(w, dest', d, files, order, script, 1);
      var rest, calm := UploadStage(w, dest', d, files, order, script, 1), UploadStage(w, dest', d, files, order, [], 1);
      UnharmedTail(Call(op, fault), rest.calls);
      UnharmedTail(Call(op, fault), []);
      assert [Call(op, fault)] + [] == [Call(op, fault)];
      AfterAttempt(w, dest, op, fault, rest.calls);
      AfterAttempt(w, dest, op, Fine, calm.calls);
      assert CreatedReleaseId(w, dest'.releases[d.stable.tag], d) == Some(dest'.releases[d.stable.tag].id);
    }
  }

  /**
   * A run under any script of faults ends exactly as the undisturbed run does, verdict and
   * destination, if every mutation it attempted took effect, answered or not; and fails if one
   * was refused or the run died at it.
   */
  lemma FaultsDecide(w: World, dest: Dest, job: Job, script: seq<Fault>)
    requires Posed(job)
    ensures var t := Run(w, dest, job, script);
            && (Unharmed(t.calls) ==> Alike(w, dest, t, Run(w, dest, job, [])))
            && (!Unharmed(t.calls) ==> t.verdict == Failed)
  {
    var plan := MakePlan(w, dest, job);
    if plan.Go? && !job.dryRun && w.signed(plan.desired) {
      if plan.desired.stable.tag !in dest.releases {
        CreateUnderFaults(w, dest, plan.desired, plan.files, job.order, script);
      } else {
        UploadsUnderFaults(w, dest, plan.desired, plan.files, job.order, script, 1);
      }
    }
  }

  lemma {:induction false} UploadFaultsComeFromScript(w: World, dest: Dest, d: Descriptor, files: map<string, Bytes>,
                                                      order: seq<string>, script: seq<Fault>, k: nat)
    requires d.stable.tag in dest.releases && forall i :: 0 <= i < |order| ==> order[i] in files
    requires forall i :: 0 <= i < |script| ==> Benign(script[i])
    ensures Unharmed(UploadStage(w, dest, d, files, order, script, k).calls)
    decreases |order|
  {
    assert Benign(FaultAt(script, k));
    if order != [] && CheckState(w, dest.releases[d.stable.tag], d) {
      if order[0] in dest.releases[d.stable.tag].assets {
        UploadFaultsComeFromScript(w, dest, d, files, order[1..], script, k);
      } else {
        var op, fault := Upload(d.stable.tag, order[0], files[order[0]]), FaultAt(script, k);
        var dest' := Effect(w, dest, op, fault);
        UploadFaultsComeFromScript(w, dest', d, files, order[1..], script, k + 1);
        UnharmedTail(Call(op, fault), UploadStage(w, dest', d, files, order[1..], script, k + 1).calls);
      }
    }
  }

  /** Losing responses, any of them, changes nothing: the run ends as if every one had been answered. */
  lemma LostResponsesAreMadeGood(w: World, dest: Dest, job: Job, script: seq<Fault>)
    requires Posed(job) && forall i :: 0 <= i < |script| ==> Benign(script[i])
    ensures Alike(w, dest, Run(w, dest, job, script), Run(w, dest, job, []))
  {
    FaultsDecide(w, dest, job, script);
    var plan := MakePlan(w, dest, job);
    if plan.Go? && !job.dryRun && w.signed(plan.desired) {
      var d := plan.desired;
      if d.stable.tag in dest.releases {
        UploadFaultsComeFromScript(w, dest, d, plan.files, job.order, script, 1);
      } else if w.bodyFor(d).Some? {
        var op, fault := Create(d, w.bodyFor(d).value), FaultAt(script, 0);
        var dest' := Do(w, dest, op);
        UploadFaultsComeFromScript(w, dest', d, plan.files, job.order, script, 1);
        UnharmedTail(Call(op, fault), UploadStage(w, dest', d, plan.files, job.order, script, 1).calls);
      }
    }
  }
}
