/**
 A whole recording history: partitions are opened one after another, by one recorder process
 after another, each free to be killed or to lose power; recovery runs between them.
 `log` is everything the consumer was ever handed, across all partitions.
 */
module ArchiveHistory {
  import opened Envelopes
  import opened Media
  import opened ArchiveProtocol

  datatype History = History(partitions: seq<Partition>, log: seq<Envelope>)

  datatype Loss = Loss(fallback: Fallback, frames: nat, torn: bool, garbled: map<Name, Content>)

  datatype Event =
    | At(index: nat, step: Step)     // the recorder process acts on one partition
    | OpenNext                       // it starts the next partition file
    | KillProcess
    | LosePower(losses: seq<Loss>)

  const START := History([], [])

  function LossSteps(losses: seq<Loss>): (steps: seq<Step>)
    ensures |steps| == |losses| && forall i :: 0 <= i < |steps| ==> steps[i].PowerLoss?
  {
    seq(|losses|, i requires 0 <= i < |losses| =>
      var l := losses[i]; PowerLoss(l.fallback, l.frames, l.torn, l.garbled))
  }

  predicate AllEnabled(ps: seq<Partition>, steps: seq<Step>, m: Medium)
    requires |ps| == |steps|
  {
    forall i :: 0 <= i < |ps| ==> Enabled(ps[i], steps[i], m)
  }

  /** A crash hits every partition at once. */
  function Everywhere(ps: seq<Partition>, steps: seq<Step>, m: Medium): (qs: seq<Partition>)
    requires |ps| == |steps| && AllEnabled(ps, steps, m)
    ensures |qs| == |ps| && forall i :: 0 <= i < |ps| ==> qs[i] == Do(ps[i], steps[i], m)
  {
    seq(|ps|, i requires 0 <= i < |ps| => Do(ps[i], steps[i], m))
  }

  /** One process works on at most one partition at a time. */
  predicate OthersIdle(h: History, index: nat) {
    forall j :: 0 <= j < |h.partitions| && j != index ==> h.partitions[j].phase == Idle
  }

  predicate Possible(h: History, event: Event, m: Medium) {
    match event
    case At(i, step) =>
      i < |h.partitions| && !step.Kill? && !step.PowerLoss? && OthersIdle(h, i) && Allowed(h.partitions[i], step, m)
    case OpenNext => forall j :: 0 <= j < |h.partitions| ==> h.partitions[j].phase == Idle
    case KillProcess => true
    case LosePower(losses) => |losses| == |h.partitions| && AllEnabled(h.partitions, LossSteps(losses), m)
  }

  function Happen(h: History, event: Event, m: Medium): History
    requires Possible(h, event, m)
  {
    match event
    case At(i, step) =>
      History(h.partitions[i := Do(h.partitions[i], step, m)],
              if step.Deliver? then h.log + [h.partitions[i].phase.envelope] else h.log)
    case OpenNext => h.(partitions := h.partitions + [FRESH])
    case KillProcess => h.(partitions := Everywhere(h.partitions, seq(|h.partitions|, _ => Kill), m))
    case LosePower(losses) => h.(partitions := Everywhere(h.partitions, LossSteps(losses), m))
  }

  predicate Alive(phase: Phase) {
    phase == Ready || phase.Writing? || phase.Written? || (phase.Program? && phase.kind == Opening)
  }

  function AllConsumed(ps: seq<Partition>): seq<Envelope> {
    if ps == [] then [] else AllConsumed(ps[..|ps| - 1]) + ps[|ps| - 1].consumed
  }

  ghost predicate HistoryInv(h: History, m: Medium) {
    && (forall i :: 0 <= i < |h.partitions| ==> Inv(h.partitions[i], m))
    && (forall i :: 0 <= i < |h.partitions| - 1 ==> !Alive(h.partitions[i].phase))
    && h.log == AllConsumed(h.partitions)
  }

  lemma {:induction false} SameConsumed(a: seq<Partition>, b: seq<Partition>)
    requires |a| == |b| && forall i :: 0 <= i < |a| ==> a[i].consumed == b[i].consumed
    ensures AllConsumed(a) == AllConsumed(b)
    decreases |a|
  {
    if a != [] { SameConsumed(a[..|a| - 1], b[..|b| - 1]); }
  }

  /** Only a delivery changes what a partition's consumer has seen. */
  lemma StepConsumes(p: Partition, step: Step, m: Medium)
    requires Enabled(p, step, m)
    ensures Do(p, step, m).consumed == if step.Deliver? then p.consumed + [p.phase.envelope] else p.consumed
    ensures Alive(Do(p, step, m).phase) ==> Alive(p.phase)
    ensures step.Kill? || step.PowerLoss? ==> Do(p, step, m).phase == Idle
  {
  }

  lemma LastReplaced(ps: seq<Partition>, q: Partition, e: Envelope)
    requires ps != [] && q.consumed == ps[|ps| - 1].consumed + [e]
    ensures AllConsumed(ps[|ps| - 1 := q]) == AllConsumed(ps) + [e]
  {
    var n := |ps| - 1;
    assert ps[n := q][..n] == ps[..n];
  }

  lemma DeliveryIsLast(h: History, i: nat, step: Step, m: Medium)
    requires HistoryInv(h, m) && Possible(h, At(i, step), m) && step.Deliver?
    ensures i == |h.partitions| - 1
    ensures AllConsumed(Happen(h, At(i, step), m).partitions)
      == AllConsumed(h.partitions) + [h.partitions[i].phase.envelope]
  {
    hide Inv, Do, Careful, CanFallBack, AllConsumed;
    StepConsumes(h.partitions[i], step, m);
    LastReplaced(h.partitions, Do(h.partitions[i], step, m), h.partitions[i].phase.envelope);
  }

  lemma CrashKeepsInv(h: History, steps: seq<Step>, m: Medium)
    requires HistoryInv(h, m) && |h.partitions| == |steps| && AllEnabled(h.partitions, steps, m)
    requires forall i :: 0 <= i < |steps| ==> steps[i].Kill? || steps[i].PowerLoss?
    ensures HistoryInv(h.(partitions := Everywhere(h.partitions, steps, m)), m)
  {
    hide Inv, Do, Careful;
    var qs := Everywhere(h.partitions, steps, m);
    forall i | 0 <= i < |qs|
      ensures Inv(qs[i], m) && !Alive(qs[i].phase) && qs[i].consumed == h.partitions[i].consumed
    {
      StepKeepsInv(h.partitions[i], steps[i], m);
      StepConsumes(h.partitions[i], steps[i], m);
    }
    SameConsumed(h.partitions, qs);
  }

  lemma ActionKeepsInv(h: History, i: nat, step: Step, m: Medium)
    requires HistoryInv(h, m) && Possible(h, At(i, step), m)
    ensures HistoryInv(Happen(h, At(i, step), m), m)
  {
    hide Inv, Do, Careful, CanFallBack;
    var ps, qs := h.partitions, Happen(h, At(i, step), m).partitions;
    var q := Do(ps[i], step, m);
    assert Inv(q, m) by { StepKeepsInv(ps[i], step, m); }
    StepConsumes(ps[i], step, m);
    assert forall j :: 0 <= j < |qs| ==> qs[j] == if j == i then q else ps[j];
    if step.Deliver? { DeliveryIsLast(h, i, step, m); } else { SameConsumed(ps, qs); }
  }

  lemma OpeningKeepsInv(h: History, m: Medium)
    requires HistoryInv(h, m) && Possible(h, OpenNext, m)
    ensures HistoryInv(Happen(h, OpenNext, m), m)
  {
    hide Inv;
    FreshIsSafe(m);
    assert (h.partitions + [FRESH])[..|h.partitions|] == h.partitions;
  }

  lemma EventKeepsInv(h: History, event: Event, m: Medium)
    requires HistoryInv(h, m) && Possible(h, event, m)
    ensures HistoryInv(Happen(h, event, m), m)
  {
    hide HistoryInv, Do, Allowed, CanFallBack;
    match event
    case At(i, step) => ActionKeepsInv(h, i, step, m);
    case OpenNext => OpeningKeepsInv(h, m);
    case KillProcess => CrashKeepsInv(h, seq(|h.partitions|, _ => Kill), m);
    case LosePower(losses) => CrashKeepsInv(h, LossSteps(losses), m);
  }

  /** The histories reachable by a sequence of events. */
  ghost predicate Leads(h: History, events: seq<Event>, end: History, m: Medium)
    decreases |events|
  {
    if events == [] then h == end else Possible(h, events[0], m) && Leads(Happen(h, events[0], m), events[1..], end, m)
  }

  lemma {:induction false} LeadsKeepsInv(h: History, events: seq<Event>, end: History, m: Medium)
    requires HistoryInv(h, m) && Leads(h, events, end, m)
    ensures HistoryInv(end, m)
    decreases |events|
  {
    if events != [] {
      EventKeepsInv(h, events[0], m);
      LeadsKeepsInv(Happen(h, events[0], m), events[1..], end, m);
    }
  }

  /** What could be restored if the power failed now, partition by partition, from the chosen medium images. */
  function Restorable(ps: seq<Partition>, images: seq<Image>): seq<seq<Envelope>>
    requires |ps| == |images|
  {
    seq(|ps|, i requires 0 <= i < |ps| => Evidence(ps[i], images[i]))
  }

  function Flatten(parts: seq<seq<Envelope>>): seq<Envelope> {
    if parts == [] then [] else Flatten(parts[..|parts| - 1]) + parts[|parts| - 1]
  }

  predicate CanSurvive(ps: seq<Partition>, fallbacks: seq<Fallback>, m: Medium) {
    |fallbacks| == |ps| && forall i :: 0 <= i < |ps| ==> CanFallBack(ps[i].disk, fallbacks[i], m)
  }

  function ImagesLeft(ps: seq<Partition>, fallbacks: seq<Fallback>, m: Medium): (images: seq<Image>)
    requires CanSurvive(ps, fallbacks, m)
    ensures |images| == |ps|
  {
    seq(|ps|, i requires 0 <= i < |ps| => Surviving(ps[i].disk, fallbacks[i]))
  }

  /**
   The audit guarantee. In every reachable history, and for every image of the medium a power
   loss could leave behind, each partition can restore a list that starts with what the consumer
   saw from it and is at most one envelope longer; the consumer's log is those starts in order;
   and no data file is visible without a manifest that verifies it. On an ordered medium histories
   are unrestricted; on an independent one every recovery must be careful.
   */
  lemma AuditGuarantee(events: seq<Event>, h: History, fallbacks: seq<Fallback>, m: Medium)
    requires Leads(START, events, h, m) && CanSurvive(h.partitions, fallbacks, m)
    ensures var images := ImagesLeft(h.partitions, fallbacks, m);
      var restorable := Restorable(h.partitions, images);
      && (forall i :: 0 <= i < |images| ==>
            && h.partitions[i].consumed <= restorable[i]
            && |restorable[i]| <= |h.partitions[i].consumed| + 1
            && BundleSafe(images[i].files))
      && h.log == Flatten(seq(|images|, i requires 0 <= i < |images| => restorable[i][..|h.partitions[i].consumed|]))
  {
    hide Inv, Evidence, BundleSafe;
    LeadsKeepsInv(START, events, h, m);
    var images := ImagesLeft(h.partitions, fallbacks, m);
    var restorable := Restorable(h.partitions, images);
    forall i | 0 <= i < |images|
      ensures h.partitions[i].consumed <= restorable[i] && |restorable[i]| <= |h.partitions[i].consumed| + 1
        && BundleSafe(images[i].files)
    {
      ConsumedIsRestorable(h.partitions[i], fallbacks[i], m);
    }
    var starts := seq(|images|, i requires 0 <= i < |images| => restorable[i][..|h.partitions[i].consumed|]);
    ConsumedFlattened(h.partitions, starts);
  }

  lemma {:induction false} ConsumedFlattened(ps: seq<Partition>, starts: seq<seq<Envelope>>)
    requires |ps| == |starts| && forall i :: 0 <= i < |ps| ==> starts[i] == ps[i].consumed
    ensures AllConsumed(ps) == Flatten(starts)
    decreases |ps|
  {
    if ps != [] { ConsumedFlattened(ps[..|ps| - 1], starts[..|ps| - 1]); }
  }
}
