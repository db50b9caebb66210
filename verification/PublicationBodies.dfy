/**
 * The bodies publication relies on are the ones the renderer writes: reading one back never
 * yields a foreign descriptor, and yields its own exactly when it can be rendered within the
 * size limit. This discharges what the publication proofs take from their surroundings.
 */
module PublicationBodies {
  import opened Prelude
  import opened Publication
  import opened PublicationSafety
  import opened ReleaseText

  /** How bodies are produced: the serialisation, the prose and parent commit of a descriptor, and
      whether its version predates readable bodies. */
  datatype Press = Press(
    codec: Codec<Descriptor>,
    prose: Descriptor -> string,
    parent: Descriptor -> string,
    legacy: Descriptor -> bool)

  predicate Renderable(press: Press, d: Descriptor) {
    && GoodFacts(press.codec.facts(d))
    && (press.legacy(d) || (IsSha(press.parent(d)) && AcceptsProse(press.prose(d))))
  }

  /** `release_body`, which raises on a descriptor it refuses. */
  function BodyOf(press: Press, d: Descriptor): Option<string> {
    if !Renderable(press, d) then None
    else if press.legacy(d) then Some(Marker(press.codec, d))
    else Some(RenderBody(press.codec, press.prose(d), d, press.parent(d)))
  }

  /** The descriptor has a body below the reader's limit. */
  predicate Readable(press: Press, d: Descriptor) {
    Renderable(press, d) && Utf8Length(BodyOf(press, d).value) < 64 * 1024
  }

  function WorldOf(press: Press, amended: (string, string) -> bool, signed: Descriptor -> bool): World {
    World(d => BodyOf(press, d), b => RecordedDescriptor(press.codec, b), amended, signed)
  }

  lemma ReadBack(press: Press, d: Descriptor)
    requires Sound(press.codec)
    ensures Renderable(press, d) ==>
              RecordedDescriptor(press.codec, BodyOf(press, d).value) == if Readable(press, d) then Some(d) else None
  {
    if !Renderable(press, d) {
    } else if press.legacy(d) {
      BareMarkerRoundTrip(press.codec, d);
    } else {
      BodyRoundTrip(press.codec, press.prose(d), d, press.parent(d));
    }
  }

  lemma BodiesAreHonest(press: Press, amended: (string, string) -> bool, signed: Descriptor -> bool)
    requires Sound(press.codec)
    ensures var w := WorldOf(press, amended, signed);
            && Honest(w)
            && forall d: Descriptor :: Recoverable(w, d) <==> Readable(press, d)
  {
    var w := WorldOf(press, amended, signed);
    forall d: Descriptor
      ensures w.bodyFor(d).Some? <==> Renderable(press, d)
      ensures w.bodyFor(d).Some? ==> w.recorded(w.bodyFor(d).value) == if Readable(press, d) then Some(d) else None
    {
      ReadBack(press, d);
    }
  }

  /**
   * Convergence with real bodies: after any history, an undisturbed rerun whose descriptor agrees
   * with the recorded one on the stable content succeeds, and so does one under a fresh tag whose
   * own body is renderable, within the limit and verified. A descriptor that cannot be rendered
   * creates nothing.
   */
  lemma RenderedReleasesSettle(press: Press, amended: (string, string) -> bool, signed: Descriptor -> bool,
                               attempts: seq<Attempt>, job: Job)
    requires Sound(press.codec)
    requires PosedAll(attempts) && GoodJob(job) && !job.dryRun
    ensures var w := WorldOf(press, amended, signed);
            var dest := RunAll(w, EMPTY, attempts);
            var tag := job.desired.stable.tag;
            Succeeded(Run(w, dest, job, []).verdict) <==>
              if tag in dest.releases then
                var original := RecordedDescriptor(press.codec, dest.releases[tag].body);
                original.Some? && original.value.stable == job.desired.stable
              else
                signed(job.desired) && Readable(press, job.desired)
    ensures var w := WorldOf(press, amended, signed);
            var dest := RunAll(w, EMPTY, attempts);
            job.desired.stable.tag !in dest.releases && !Renderable(press, job.desired) ==>
              Run(w, dest, job, []).calls == []
  {
    BodiesAreHonest(press, amended, signed);
    RerunSettles(WorldOf(press, amended, signed), attempts, job);
  }
}
