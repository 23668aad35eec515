/**
 Which workflow runs are listed, and with what: the last observation of a run decides whether it
 is listed, the highest revision since its last start is the one shown, and a run that a live
 run resumes from is gone.
 */
module FoldListings {
  import opened Options
  import opened FoldTypes
  import opened Fold
  import opened FoldFlows

  /** An observation of this run. */
  predicate About(o: Sighting, run: Id) {
    o.item.kind == Workflow && o.item.runId == run && run != ""
  }

  predicate Ends(o: Sighting) {
    o.completed || o.item.status == Completed || o.item.status == Failed || o.item.status == Cancelled
  }

  /** A live observation of another run that resumes from this one. */
  predicate Replaces(o: Sighting, run: Id) {
    About(o, o.item.runId) && !Ends(o) && o.item.resumeFrom == run && run != "" && run != o.item.runId
  }

  /** Some run that was not itself gone resumed from this one. */
  ghost predicate Gone(seen: seq<Sighting>, run: Id)
    decreases |seen|
  {
    exists j :: 0 <= j < |seen| && Replaces(seen[j], run) && !Gone(seen[..j], seen[j].item.runId)
  }

  /** The last observation of the run is live. */
  ghost predicate LastIsLive(seen: seq<Sighting>, run: Id) {
    exists i :: 0 <= i < |seen| && About(seen[i], run) && !Ends(seen[i])
      && forall j :: i < j < |seen| ==> !About(seen[j], run)
  }

  /** The run's current life starts here: at a resume, or with nothing live before. */
  ghost predicate Starts(seen: seq<Sighting>, run: Id, start: nat)
    requires start < |seen|
  {
    && About(seen[start], run) && !Ends(seen[start])
    && (seen[start].item.resumeFrom != "" || !LastIsLive(seen[..start], run))
  }

  /** Since its start the run was only observed live and not resumed, and number `i` has the
      highest revision, the last one among equals. */
  ghost predicate Best(seen: seq<Sighting>, run: Id, start: nat, i: nat) {
    && start <= i < |seen| && About(seen[i], run) && Starts(seen, run, start)
    && (forall j :: start < j < |seen| && About(seen[j], run) ==> !Ends(seen[j]) && seen[j].item.resumeFrom == "")
    && (forall j :: start <= j < |seen| && About(seen[j], run) ==> seen[j].item.revision <= seen[i].item.revision)
    && (forall j :: i < j < |seen| && About(seen[j], run) ==> seen[j].item.revision < seen[i].item.revision)
  }

  const NOTHING: Flows := Flows(map[], {})

  lemma GoneStep(seen: seq<Sighting>, o: Sighting, run: Id)
    ensures Gone(seen + [o], run) <==> Gone(seen, run) || (Replaces(o, run) && !Gone(seen, o.item.runId))
  {
    hide Replaces;
    var more := seen + [o];
    assert more[..|seen|] == seen && more[|seen|] == o;
    assert forall j :: 0 <= j < |seen| ==> more[j] == seen[j] && more[..j] == seen[..j];
  }

  lemma LiveStep(seen: seq<Sighting>, o: Sighting, run: Id)
    ensures LastIsLive(seen + [o], run) <==> if About(o, run) then !Ends(o) else LastIsLive(seen, run)
  {
    hide About, Ends;
    var more := seen + [o];
    assert more[|seen|] == o;
    assert forall j :: 0 <= j < |seen| ==> more[j] == seen[j];
  }

  /** What one observation does to a run, with the guards spelled out. */
  lemma ObserveOne(f: Flows, o: Sighting, run: Id)
    requires run != "" && f.listed.Keys !! f.superseded
    ensures var g := ObserveWorkflow(f, o.item, o.completed);
      var counts := About(o, o.item.runId) && o.item.runId !in f.superseded;
      && (run in g.superseded <==> run in f.superseded || (counts && Replaces(o, run)))
      && (run in g.listed <==>
            run !in g.superseded && if About(o, run) then !Ends(o) else run in f.listed)
      && (run in g.listed && !About(o, run) ==> g.listed[run] == f.listed[run])
      && (run in g.listed && About(o, run) ==>
            g.listed[run] ==
              if run in f.listed && o.item.resumeFrom == "" && f.listed[run].revision > o.item.revision
              then f.listed[run] else Observation(o.item.revision, o.item.paused))
  {
  }

  /** The listing, from the observations: gone runs are remembered, and a run is listed exactly
      when it is not gone and was last observed live. */
  lemma {:induction false} ListedMeaning(seen: seq<Sighting>, run: Id)
    requires run != ""
    ensures var g := ObserveAll(NOTHING, seen);
      && (run in g.superseded <==> Gone(seen, run))
      && (run in g.listed <==> !Gone(seen, run) && LastIsLive(seen, run))
    decreases |seen|
  {
    hide ObserveWorkflow, Replaces, Ends;
    if seen != [] {
      var rest, o := seen[..|seen| - 1], seen[|seen| - 1];
      assert seen == rest + [o];
      var f := ObserveAll(NOTHING, rest);
      ListedMeaning(rest, run);
      if o.item.runId != "" {
        ListedMeaning(rest, o.item.runId);
      }
      SupersededForever(NOTHING, rest);
      GoneStep(rest, o, run);
      LiveStep(rest, o, run);
      ReplacesNames(o, run);
      hide Gone, LastIsLive;
      ObserveOne(f, o, run);
    }
  }

  lemma ReplacesNames(o: Sighting, run: Id)
    ensures Replaces(o, run) ==> About(o, o.item.runId) && o.item.runId != ""
  {
  }

  /** What a listed run shows is its best observation. */
  lemma {:induction false} ListedBest(seen: seq<Sighting>, run: Id) returns (start: nat, i: nat)
    requires run in ObserveAll(NOTHING, seen).listed && run != ""
    ensures i < |seen| && Best(seen, run, start, i)
    ensures ObserveAll(NOTHING, seen).listed[run] == Observation(seen[i].item.revision, seen[i].item.paused)
    decreases |seen|
  {
    hide ObserveWorkflow, Best, About, Ends;
    var rest, o := seen[..|seen| - 1], seen[|seen| - 1];
    assert seen == rest + [o];
    var f := ObserveAll(NOTHING, rest);
    SupersededForever(NOTHING, rest);
    ListedMeaning(rest, run);
    ListedMeaning(seen, run);
    GoneStep(rest, o, run);
    ObserveOne(f, o, run);
    if run in f.listed {
      start, i := ListedBest(rest, run);
      BestStep(rest, o, run, start, i);
      if About(o, run) && (o.item.resumeFrom != "" || f.listed[run].revision <= o.item.revision) {
        if o.item.resumeFrom != "" {
          start := |rest|;
        }
        i := |rest|;
      }
    } else {
      start, i := |rest|, |rest|;
      BestFirst(rest, o, run);
    }
  }

  /** A first or resuming live observation starts a life. */
  lemma BestFirst(rest: seq<Sighting>, o: Sighting, run: Id)
    requires About(o, run) && !Ends(o) && (o.item.resumeFrom != "" || !LastIsLive(rest, run))
    ensures Best(rest + [o], run, |rest|, |rest|)
  {
    hide About, Ends, LastIsLive;
    var more := rest + [o];
    assert more[|rest|] == o && more[..|rest|] == rest;
  }

  lemma BestStep(rest: seq<Sighting>, o: Sighting, run: Id, start: nat, i: nat)
    requires Best(rest, run, start, i)
    ensures var more := rest + [o];
      && (!About(o, run) ==> Best(more, run, start, i))
      && (About(o, run) && !Ends(o) && o.item.resumeFrom == "" ==>
            if o.item.revision < rest[i].item.revision then Best(more, run, start, i)
            else Best(more, run, start, |rest|))
      && (About(o, run) && !Ends(o) && o.item.resumeFrom != "" ==> Best(more, run, |rest|, |rest|))
  {
    hide About, Ends, LastIsLive;
    var more := rest + [o];
    assert more[|rest|] == o && more[..start] == rest[..start];
    assert forall j :: 0 <= j < |rest| ==> more[j] == rest[j];
    if About(o, run) && !Ends(o) && o.item.resumeFrom != "" {
      BestFirst(rest, o, run);
    }
  }
}
