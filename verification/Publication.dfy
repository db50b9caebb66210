/**
 * Crash-safe, immutable publication (scripts/boringtun_release.py `publish_release` over
 * scripts/boringtun_release_policy.py).
 *
 * A destination holds releases by tag. A run drives it through create, upload and publish, each
 * of which may succeed, be refused, take effect while its response is lost, or be the last thing
 * a dying run does. A script of such faults is part of the input, so a statement about every
 * script is one about every way a run can go. Reads are truthful, runs follow one another, and
 * SHA-256 and the canonical serialisation are collision-free, being constructors here.
 */
module Publication {
  import opened Prelude

  const RELEASE_JSON: string := "RELEASE.json"
  const SHA256SUMS: string := "SHA256SUMS"

  /** File contents: a canonical descriptor, the checksum list of a set of archives, or anything else. */
  datatype Bytes = Canonical(d: Descriptor) | Checksums(archives: map<string, Digest>) | Blob(id: int)

  datatype Digest = Sha(of: Bytes)

  /** The descriptor fields a rerun must reproduce: identity, toolchain, notices and archives. */
  datatype Stable = Stable(tag: string, source: string, identity: int, archives: map<string, Digest>)

  /** A descriptor: the stable part, and the build and publisher evidence of the run that made it. */
  datatype Descriptor = Descriptor(stable: Stable, evidence: int)

  predicate CheckDescriptor(d: Descriptor) {
    RELEASE_JSON !in d.stable.archives && SHA256SUMS !in d.stable.archives
  }

  datatype Release = Release(
    id: nat,
    tag: string,
    target: string,
    draft: bool,
    body: string,
    assets: map<string, Bytes>)

  datatype Dest = Dest(releases: map<string, Release>, nextId: nat)

  /**
   * What lies outside this code: how a descriptor is rendered into a release body, if it can be,
   * and read back from one, which reviewed rewordings of a published body are accepted, and whose signatures
   * verify.
   */
  datatype World = World(
    bodyFor: Descriptor -> Option<string>,
    recorded: string -> Option<Descriptor>,
    amended: (string, string) -> bool,
    signed: Descriptor -> bool)

  /** A body never yields a descriptor other than the one it was rendered from. */
  ghost predicate Honest(w: World) {
    forall d: Descriptor :: w.bodyFor(d).Some? ==>
                              w.recorded(w.bodyFor(d).value) == None || w.recorded(w.bodyFor(d).value) == Some(d)
  }

  /** `d` has a body that can be read back: it is within the size limit and well formed. */
  predicate Recoverable(w: World, d: Descriptor) {
    w.bodyFor(d).Some? && w.recorded(w.bodyFor(d).value) == Some(d)
  }

  // ----- policy ------------------------------------------------------------

  function ReleaseAssets(d: Descriptor): map<string, Digest> {
    d.stable.archives[SHA256SUMS := Sha(Checksums(d.stable.archives))][RELEASE_JSON := Sha(Canonical(d))]
  }

  predicate CheckFiles(d: Descriptor, files: map<string, Bytes>, complete: bool) {
    var expected := ReleaseAssets(d);
    && files.Keys <= expected.Keys
    && (complete ==> files.Keys == expected.Keys)
    && forall name :: name in files ==> Sha(files[name]) == expected[name]
  }

  datatype Action = Creates | Resumes | AlreadyThere

  /** A destination state as the policy compares it, with provenance already verified. */
  datatype Existing = Existing(tag: string, target: string, draft: bool, original: Descriptor, assets: map<string, Digest>)

  function PublicationAction(existing: Option<Existing>, desired: Descriptor): Option<Action> {
    if !CheckDescriptor(desired) then None
    else if existing.None? then Some(Creates)
    else
      var e := existing.value;
      var expected := ReleaseAssets(e.original);
      if !CheckDescriptor(e.original)
         || e.tag != e.original.stable.tag || e.original.stable.tag != desired.stable.tag
         || e.target != e.original.stable.source || e.original.stable.source != desired.stable.source
         || e.original.stable != desired.stable
         || (exists name :: name in e.assets && !(name in expected && e.assets[name] == expected[name]))
      then None
      else if e.draft then
        if e.original == desired && RELEASE_JSON in e.assets then Some(Resumes) else None
      else
        if e.assets == expected then Some(AlreadyThere) else None
  }

  /** `_check_state`: the readback describes exactly this descriptor. */
  predicate CheckState(w: World, r: Release, d: Descriptor) {
    && r.id > 0
    && r.tag == d.stable.tag && r.target == d.stable.source
    && w.recorded(r.body) == Some(d)
    && w.bodyFor(d).Some?
    && (r.body == w.bodyFor(d).value || (!r.draft && w.amended(r.body, w.bodyFor(d).value)))
    && CheckFiles(d, r.assets, !r.draft)
  }

  /** `created_release_id`: a create response is bound to what was asked for before its id is used. */
  function CreatedReleaseId(w: World, response: Release, d: Descriptor): Option<nat> {
    if response.id > 0 && response.tag == d.stable.tag && response.target == d.stable.source
       && Some(response.body) == w.bodyFor(d) && response.draft && response.assets == map[]
    then Some(response.id) else None
  }

  // ----- the destination ---------------------------------------------------

  datatype Op =
    | Create(d: Descriptor, body: string)
    | Upload(tag: string, name: string, bytes: Bytes)
    | Publish(tag: string)

  function Draft(id: nat, d: Descriptor, body: string): Release {
    Release(id, d.stable.tag, d.stable.source, true, body, map[])
  }

  function Do(w: World, dest: Dest, op: Op): Dest {
    match op
    case Create(d, body) =>
      Dest(dest.releases[d.stable.tag := Draft(dest.nextId + 1, d, body)], dest.nextId + 1)
    case Upload(tag, name, bytes) =>
      if tag !in dest.releases then dest
      else
        var r := dest.releases[tag];
        dest.(releases := dest.releases[tag := r.(assets := r.assets[name := bytes])])
    case Publish(tag) =>
      if tag !in dest.releases then dest
      else dest.(releases := dest.releases[tag := dest.releases[tag].(draft := false)])
  }

  // ----- one run -----------------------------------------------------------

  /**
   * What becomes of a mutation. `Refused` and `Lost` both surface as an error the run reads back
   * from. `DiesBefore` and `DiesAfter` also stand for every read, gate or verification that fails
   * just before or just after it.
   */
  datatype Fault = Fine | Refused | Lost | DiesBefore | DiesAfter

  predicate Takes(f: Fault) { f.Fine? || f.Lost? || f.DiesAfter? }

  predicate Survives(f: Fault) { !f.DiesBefore? && !f.DiesAfter? }

  /** The destination after attempting a mutation. */
  function Effect(w: World, dest: Dest, op: Op, f: Fault): Dest { if Takes(f) then Do(w, dest, op) else dest }

  /** A mutation attempted, whatever became of it. */
  datatype Call = Call(op: Op, fault: Fault)

  function DoAll(w: World, dest: Dest, calls: seq<Call>): Dest
    decreases |calls|
  {
    if calls == [] then dest else DoAll(w, Effect(w, dest, calls[0].op, calls[0].fault), calls[1..])
  }

  function FaultAt(script: seq<Fault>, k: nat): Fault {
    if k < |script| then script[k] else Fine
  }

  datatype Verdict = Published | AlreadyPublished | Planned(action: Action) | Failed

  datatype Trace = Trace(verdict: Verdict, calls: seq<Call>)

  /** The descriptor and files a run asks for, the order it uploads in, and whether it only plans. */
  datatype Job = Job(desired: Descriptor, files: map<string, Bytes>, order: seq<string>, dryRun: bool)

  /** The descriptor goes first; every file has its turn. */
  predicate UploadOrder(files: map<string, Bytes>, order: seq<string>) {
    && order != [] && order[0] == RELEASE_JSON
    && (forall name :: name in files ==> name in order)
    && (forall i :: 0 <= i < |order| ==> order[i] in files)
  }

  predicate GoodJob(job: Job) {
    CheckDescriptor(job.desired) && CheckFiles(job.desired, job.files, true) && UploadOrder(job.files, job.order)
  }

  /** Any job, good or not, as long as the upload order is one for its files whenever it will be used. */
  predicate Posed(job: Job) {
    CheckDescriptor(job.desired) && CheckFiles(job.desired, job.files, true) ==> UploadOrder(job.files, job.order)
  }

  datatype Plan = Stop(verdict: Verdict) | Go(action: Action, desired: Descriptor, files: map<string, Bytes>)

  /** Everything up to the dry-run return: read, compare with what is there, settle on a descriptor. */
  function MakePlan(w: World, dest: Dest, job: Job): Plan {
    var desired := job.desired;
    var tag := desired.stable.tag;
    if !CheckDescriptor(desired) || !CheckFiles(desired, job.files, true) then Stop(Failed)
    else if tag !in dest.releases then Go(Creates, desired, job.files)
    else
      var state := dest.releases[tag];
      var found := if RELEASE_JSON in state.assets then FromAsset(state.assets[RELEASE_JSON]) else w.recorded(state.body);
      if found.None? || !CheckDescriptor(found.value) then Stop(Failed)
      else
        var original := found.value;
        var existing := Existing(state.tag, state.target, false, original, ReleaseAssets(original));
        var files := job.files[RELEASE_JSON := Canonical(original)];
        if !CheckState(w, state, original) || !w.signed(original) then Stop(Failed)
        else if RELEASE_JSON !in state.assets && !(state.draft && state.assets == map[]) then Stop(Failed)
        else if PublicationAction(Some(existing), desired).None? then Stop(Failed)
        else if !state.draft then Stop(AlreadyPublished)
        else if !CheckFiles(original, files, true) then Stop(Failed)
        else Go(Resumes, original, files)
  }

  function FromAsset(bytes: Bytes): Option<Descriptor> {
    if bytes.Canonical? then Some(bytes.d) else None
  }

  function PublishStage(w: World, dest: Dest, d: Descriptor, fault: Fault): Trace
    requires d.stable.tag in dest.releases
  {
    var tag := d.stable.tag;
    if !CheckFiles(d, dest.releases[tag].assets, true) || !w.signed(d) then Trace(Failed, [])
    else
      var calls := [Call(Publish(tag), fault)];
      var state := Effect(w, dest, Publish(tag), fault).releases[tag];
      if Survives(fault) && CheckState(w, state, d) && !state.draft then Trace(Published, calls)
      else Trace(Failed, calls)
  }

  /** The readback after an upload shows the asset, in a release still describing `d`. */
  predicate Confirmed(w: World, dest: Dest, d: Descriptor, name: string, fault: Fault)
    requires d.stable.tag in dest.releases
  {
    var state := dest.releases[d.stable.tag];
    Survives(fault) && name in state.assets && CheckState(w, state, d)
  }

  function UploadStage(w: World, dest: Dest, d: Descriptor, files: map<string, Bytes>, order: seq<string>,
                       script: seq<Fault>, k: nat): Trace
    requires d.stable.tag in dest.releases
    requires forall i :: 0 <= i < |order| ==> order[i] in files
    decreases |order|
  {
    var tag := d.stable.tag;
    if order == [] then PublishStage(w, dest, d, FaultAt(script, k))
    else if !CheckState(w, dest.releases[tag], d) then Trace(Failed, [])
    else if order[0] in dest.releases[tag].assets then UploadStage(w, dest, d, files, order[1..], script, k)
    else
      var op, fault := Upload(tag, order[0], files[order[0]]), FaultAt(script, k);
      var calls := [Call(op, fault)];
      var dest' := Effect(w, dest, op, fault);
      if !Confirmed(w, dest', d, order[0], fault) then Trace(Failed, calls)
      else
        var rest := UploadStage(w, dest', d, files, order[1..], script, k + 1);
        Trace(rest.verdict, calls + rest.calls)
  }

  /** The body is rendered before the draft is asked for: a descriptor without one creates nothing. */
  function CreateStage(w: World, dest: Dest, d: Descriptor, files: map<string, Bytes>, order: seq<string>,
                       script: seq<Fault>): Trace
    requires d.stable.tag !in dest.releases
    requires forall i :: 0 <= i < |order| ==> order[i] in files
  {
    if w.bodyFor(d).None? then Trace(Failed, [])
    else
      var tag := d.stable.tag;
      var op, fault := Create(d, w.bodyFor(d).value), FaultAt(script, 0);
      var calls := [Call(op, fault)];
      var dest' := Effect(w, dest, op, fault);
      if !Survives(fault) || tag !in dest'.releases then Trace(Failed, calls)
      else if fault.Fine? && CreatedReleaseId(w, dest'.releases[tag], d) != Some(dest'.releases[tag].id) then Trace(Failed, calls)
      else if !CheckState(w, dest'.releases[tag], d) then Trace(Failed, calls)
      else
        var rest := UploadStage(w, dest', d, files, order, script, 1);
        Trace(rest.verdict, calls + rest.calls)
  }

  function Run(w: World, dest: Dest, job: Job, script: seq<Fault>): Trace
    requires Posed(job)
  {
    var plan := MakePlan(w, dest, job);
    match plan
    case Stop(verdict) => Trace(verdict, [])
    case Go(action, desired, files) =>
      if job.dryRun then Trace(Planned(action), [])
      else if !w.signed(desired) then Trace(Failed, [])
      else if desired.stable.tag !in dest.releases then CreateStage(w, dest, desired, files, job.order, script)
      else UploadStage(w, dest, desired, files, job.order, script, 1)
  }

  function RunDest(w: World, dest: Dest, job: Job, script: seq<Fault>): Dest
    requires Posed(job)
  {
    DoAll(w, dest, Run(w, dest, job, script).calls)
  }

  // ----- the run as it is carried out --------------------------------------

  class Destination {
    var releases: map<string, Release>
    var nextId: nat

    constructor ()
      ensures Value() == Dest(map[], 0)
    {
      releases, nextId := map[], 0;
    }

    function Value(): Dest
      reads this
    {
      Dest(releases, nextId)
    }

    method CreateDraft(w: World, d: Descriptor, body: string, fault: Fault)
      modifies this
      ensures Value() == Effect(w, old(Value()), Create(d, body), fault)
    {
      if Takes(fault) {
        nextId := nextId + 1;
        releases := releases[d.stable.tag := Draft(nextId, d, body)];
      }
    }

    method UploadAsset(w: World, tag: string, name: string, bytes: Bytes, fault: Fault)
      modifies this
      ensures Value() == Effect(w, old(Value()), Upload(tag, name, bytes), fault)
    {
      if Takes(fault) && tag in releases {
        var r := releases[tag];
        releases := releases[tag := r.(assets := r.assets[name := bytes])];
      }
    }

    method PublishDraft(w: World, tag: string, fault: Fault)
      modifies this
      ensures Value() == Effect(w, old(Value()), Publish(tag), fault)
    {
      if Takes(fault) && tag in releases {
        releases := releases[tag := releases[tag].(draft := false)];
      }
    }

    /** The last stage: a complete draft is published and read back. */
    method PublishComplete(w: World, d: Descriptor, fault: Fault) returns (verdict: Verdict)
      requires d.stable.tag in releases
      modifies this
      ensures var t := PublishStage(w, old(Value()), d, fault);
              verdict == t.verdict && Value() == DoAll(w, old(Value()), t.calls)
    {
      var tag := d.stable.tag;
      if !CheckFiles(d, releases[tag].assets, true) || !w.signed(d) {
        return Failed;
      }
      AfterAttempt(w, Value(), Publish(tag), fault, []);
      PublishDraft(w, tag, fault);
      var done := Survives(fault) && CheckState(w, releases[tag], d) && !releases[tag].draft;
      return if done then Published else Failed;
    }

    /** The upload loop and the publication after it, from the `k`-th fault on. */
    method UploadAndPublish(w: World, d: Descriptor, files: map<string, Bytes>, order: seq<string>,
                            script: seq<Fault>, first: nat) returns (verdict: Verdict)
      requires d.stable.tag in releases
      requires forall i :: 0 <= i < |order| ==> order[i] in files
      modifies this
      ensures var t := UploadStage(w, old(Value()), d, files, order, script, first);
              verdict == t.verdict && Value() == DoAll(w, old(Value()), t.calls)
    {
      var tag := d.stable.tag;
      ghost var whole := UploadStage(w, Value(), d, files, order, script, first);
      ghost var goal := DoAll(w, Value(), whole.calls);
      var k := first;
      var i := 0;
      while i < |order|
        invariant 0 <= i <= |order|
        invariant tag in releases
        invariant var t := UploadStage(w, Value(), d, files, order[i..], script, k);
                  t.verdict == whole.verdict && DoAll(w, Value(), t.calls) == goal
      {
        assert order[i..][0] == order[i] && order[i..][1..] == order[i + 1..];
        var name := order[i];
        if !CheckState(w, releases[tag], d) {
          return Failed;
        }
        if name !in releases[tag].assets {
          var fault := FaultAt(script, k);
          UploadUnfolds(w, Value(), d, files, order[i..], script, k);
          UploadAsset(w, tag, name, files[name], fault);
          if !Confirmed(w, Value(), d, name, fault) {
            return Failed;
          }
          k := k + 1;
        }
        i := i + 1;
      }
      verdict := PublishComplete(w, d, FaultAt(script, k));
    }

    /** `publish_release`. */
    method PublishRelease(w: World, job: Job, script: seq<Fault>) returns (verdict: Verdict)
      requires Posed(job)
      modifies this
      ensures verdict == Run(w, old(Value()), job, script).verdict
      ensures Value() == RunDest(w, old(Value()), job, script)
    {
      var plan := MakePlan(w, Value(), job);
      if plan.Stop? {
        return plan.verdict;
      }
      if job.dryRun {
        return Planned(plan.action);
      }
      if !w.signed(plan.desired) {
        return Failed;
      }
      var d, tag := plan.desired, plan.desired.stable.tag;
      if tag !in releases {
        var rendered := w.bodyFor(d);
        if rendered.None? {
          return Failed;
        }
        var body, fault := rendered.value, FaultAt(script, 0);
        ghost var here := Value();
        CreateDraft(w, d, body, fault);
        AfterAttempt(w, here, Create(d, body), fault, []);
        if !Survives(fault) || tag !in releases {
          return Failed;
        }
        AfterAttempt(w, here, Create(d, body), fault, UploadStage(w, Value(), d, plan.files, job.order, script, 1).calls);
        if fault.Fine? && CreatedReleaseId(w, releases[tag], d) != Some(releases[tag].id) {
          return Failed;
        }
        if !CheckState(w, releases[tag], d) {
          return Failed;
        }
      }
      verdict := UploadAndPublish(w, d, plan.files, job.order, script, 1);
    }
  }

  /** One turn of the upload loop that uploads: where it leads, and what the rest starts from. */
  lemma UploadUnfolds(w: World, dest: Dest, d: Descriptor, files: map<string, Bytes>, order: seq<string>,
                      script: seq<Fault>, k: nat)
    requires d.stable.tag in dest.releases && order != []
    requires forall i :: 0 <= i < |order| ==> order[i] in files
    requires CheckState(w, dest.releases[d.stable.tag], d) && order[0] !in dest.releases[d.stable.tag].assets
    ensures var fault := FaultAt(script, k);
            var dest' := Effect(w, dest, Upload(d.stable.tag, order[0], files[order[0]]), fault);
            var t := UploadStage(w, dest, d, files, order, script, k);
            && d.stable.tag in dest'.releases
            && var on := Confirmed(w, dest', d, order[0], fault);
               var rest := UploadStage(w, dest', d, files, order[1..], script, k + 1);
               && t.verdict == (if on then rest.verdict else Failed)
               && DoAll(w, dest, t.calls) == (if on then DoAll(w, dest', rest.calls) else dest')
  {
    var op, fault := Upload(d.stable.tag, order[0], files[order[0]]), FaultAt(script, k);
    var dest' := Effect(w, dest, op, fault);
    AfterAttempt(w, dest, op, fault, UploadStage(w, dest', d, files, order[1..], script, k + 1).calls);
  }

  lemma AfterAttempt(w: World, dest: Dest, op: Op, fault: Fault, rest: seq<Call>)
    ensures DoAll(w, dest, [Call(op, fault)]) == Effect(w, dest, op, fault)
    ensures DoAll(w, dest, [Call(op, fault)] + rest) == DoAll(w, Effect(w, dest, op, fault), rest)
  {
    assert ([Call(op, fault)] + rest)[1..] == rest;
  }
}
