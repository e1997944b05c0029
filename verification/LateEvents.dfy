/**
 Late ledger files: a file that appears at or below the published watermark is published
 by no listing compaction, and folded by none that starts afterwards, whatever the
 late-event policy.
 */
module LateEvents {
  import opened ObjectStore
  import opened LexOrder
  import opened CompactorProtocol

  /** What a listing compactor that starts after `name` became late can be doing. */
  ghost predicate Skips(pc: Pc, name: string, w: string) {
    match pc
    case Plan(_, m) => WatermarkAtMost(Some(w), m.watermark)
    case FoldEventFiles(_, _, names, _) => name !in names
    case WriteSnapshot(_, _, names, _, _) => name !in names
    case _ => true
  }

  ghost predicate LateRunsSkip(s: State, early: set<nat>, name: string, w: string) {
    && () in s.manifests.objects && WatermarkAtMost(Some(w), s.manifests.objects[()].body.watermark)
    && forall pid :: pid in s.procs && pid !in early && s.procs[pid].explicit.None? ==> Skips(s.procs[pid].pc, name, w)
  }

  lemma NotListed(ledger: seq<LedgerFile>, watermark: Option<string>, name: string, w: string)
    requires AtMost(name, w) && WatermarkAtMost(Some(w), watermark)
    ensures name !in NamesAfter(ledger, watermark)
  {
    var names := NamesAfter(ledger, watermark);
    if name in names {
      var i :| 0 <= i < |names| && names[i] == name;
      NamesAfterAreAfter(ledger, watermark, i);
      Irreflexive(name);
      if name != w && w != watermark.value {
        Transitive(name, w, watermark.value);
      }
      if name != watermark.value {
        Asymmetric(name, watermark.value);
      }
    }
  }

  lemma StepSkips(cfg: Config, s: State, pid: nat, c: Choice, name: string, w: string)
    requires pid in s.procs && s.procs[pid].explicit.None? && Skips(s.procs[pid].pc, name, w) && AtMost(name, w)
    requires () in s.manifests.objects && WatermarkAtMost(Some(w), s.manifests.objects[()].body.watermark)
    ensures Skips(StepProcess(cfg, s, pid, s.procs[pid], c).procs[pid].pc, name, w)
  {
    var p := s.procs[pid];
    if p.pc.Plan? {
      NotListed(Listing(s.ledger), p.pc.manifest.watermark, name, w);
    }
  }

  /** A step keeps how its compactor was started, and touches no other. */
  lemma StepFrame(cfg: Config, s: State, pid: nat, c: Choice)
    requires pid in s.procs
    ensures var s' := StepProcess(cfg, s, pid, s.procs[pid], c);
            && pid in s'.procs && s'.procs == s.procs[pid := s'.procs[pid]]
            && s'.procs[pid].explicit == s.procs[pid].explicit
  {
  }

  lemma NextSkips(cfg: Config, s: State, a: Action, early: set<nat>, name: string, w: string)
    requires Inv(s) && LateRunsSkip(s, early, name, w) && AtMost(name, w)
    ensures LateRunsSkip(Next(cfg, s, a), early, name, w)
  {
    var s' := Next(cfg, s, a);
    NextKeepsInv(cfg, s, a);
    WatermarkTransitive(Some(w), s.manifests.objects[()].body.watermark, s'.manifests.objects[()].body.watermark);
    if a.Step? && a.pid in s.procs {
      StepFrame(cfg, s, a.pid, a.choice);
      if a.pid !in early && s.procs[a.pid].explicit.None? {
        StepSkips(cfg, s, a.pid, a.choice, name, w);
      }
    }
  }

  lemma {:induction false} ExecSkips(cfg: Config, s: State, run: seq<Action>, early: set<nat>, name: string, w: string)
    requires Inv(s) && LateRunsSkip(s, early, name, w) && AtMost(name, w)
    ensures LateRunsSkip(Exec(cfg, s, run), early, name, w)
    decreases |run|
  {
    if run != [] {
      NextKeepsInv(cfg, s, run[0]);
      NextSkips(cfg, s, run[0], early, name, w);
      ExecSkips(cfg, Next(cfg, s, run[0]), run[1..], early, name, w);
    }
  }

  /**
   Once `name` is at or below the published watermark, no listing compaction started
   later ever has it in its batch, whenever the file appears and whatever the policy.
   */
  lemma LateFilesAreNeverFolded(cfg: Config, run: seq<Action>, more: seq<Action>, name: string, pid: nat)
    requires var s := Exec(cfg, Init(), run);
             () in s.manifests.objects && !After(name, s.manifests.objects[()].body.watermark)
    requires pid !in Exec(cfg, Init(), run).procs
    ensures var s' := Exec(cfg, Exec(cfg, Init(), run), more);
            pid in s'.procs && s'.procs[pid].explicit.None? ==>
              match s'.procs[pid].pc
              case FoldEventFiles(_, _, names, _) => name !in names
              case WriteSnapshot(_, _, names, _, _) => name !in names
              case _ => true
  {
    InitOk();
    ExecKeepsInv(cfg, Init(), run);
    var s := Exec(cfg, Init(), run);
    var w := s.manifests.objects[()].body.watermark.value;
    Total(name, w);
    ExecSkips(cfg, s, more, s.procs.Keys, name, w);
  }

  lemma NotAfterLater(name: string, w: Option<string>, later: Option<string>)
    requires !After(name, w) && WatermarkAtMost(w, later)
    ensures !After(name, later)
  {
    Total(name, w.value);
    if w != later && name != w.value {
      Transitive(name, w.value, later.value);
    }
    if Less(later.value, name) {
      if name == w.value || name == later.value {
        Asymmetric(later.value, name);
      } else {
        Asymmetric(name, later.value);
      }
    }
  }

  /**
   Once `name` is at or below the published watermark, no listing compaction, whenever it
   started and however long it waited, publishes a batch with that name in it.
   */
  lemma LateFilesAreNeverPublished(cfg: Config, run: seq<Action>, more: seq<Action>, name: string, pid: nat, c: Choice)
    requires var s := Exec(cfg, Init(), run);
             () in s.manifests.objects && !After(name, s.manifests.objects[()].body.watermark)
    ensures var s' := Exec(cfg, Exec(cfg, Init(), run), more);
            Next(cfg, s', Step(pid, c)).manifests != s'.manifests && s'.procs[pid].explicit.None? ==>
              s'.procs[pid].pc.Publish? && name !in s'.procs[pid].pc.names
  {
    WatermarkNeverRegresses(cfg, run, more);
    ExecConcat(cfg, Init(), run, more);
    var s := Exec(cfg, Init(), run);
    var s' := Exec(cfg, s, more);
    PublicationsAdvance(cfg, run + more, pid, c);
    NotAfterLater(name, s.manifests.objects[()].body.watermark, s'.manifests.objects[()].body.watermark);
  }
}
