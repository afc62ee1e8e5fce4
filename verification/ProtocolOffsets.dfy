/** That a committed message is behind the consumer group for good. */
module ProtocolOffsets {
  import opened Tables
  import opened Protocol

  predicate CommitsOffset(s: Sys, x: Step, p: nat) {
    && x.CommitOffset? && x.applied && x.id in s.workers && s.workers[x.id].pc.Handled?
    && s.workers[x.id].pc.f.partition == p
  }

  /** An applied commit passes the handled message. */
  lemma CommitPassesMessage(s: Sys, id: WorkerId, raised: bool)
    requires id in s.workers && s.workers[id].pc.Handled? && s.workers[id].pc.f.partition < |s.committed|
    ensures var f, z := s.workers[id].pc.f, Next(s, CommitOffset(id, true, raised));
      |z.committed| == |s.committed| && z.committed[f.partition] > f.offset
  {}

  function CommitsOf(s: Sys, steps: seq<Step>, p: nat): nat
    decreases |steps|
  {
    if steps == [] then 0
    else (if CommitsOffset(s, steps[0], p) then 1 else 0) + CommitsOf(Next(s, steps[0]), steps[1..], p)
  }

  lemma StepKeepsCommitted(s: Sys, x: Step, p: nat)
    requires p < |s.committed| && !CommitsOffset(s, x, p)
    ensures |Next(s, x).committed| == |s.committed| && Next(s, x).committed[p] == s.committed[p]
  {}

  lemma {:induction false} CommittedStays(s: Sys, steps: seq<Step>, p: nat)
    requires p < |s.committed| && CommitsOf(s, steps, p) == 0
    ensures |Exec(s, steps).committed| == |s.committed| && Exec(s, steps).committed[p] == s.committed[p]
    decreases |steps|
  {
    if steps != [] {
      StepKeepsCommitted(s, steps[0], p);
      CommittedStays(Next(s, steps[0]), steps[1..], p);
    }
  }

  /** A consumer reads its partition message by message, from the committed offset on. */
  lemma PollReadsOn(s: Sys, id: WorkerId, p: nat)
    ensures var z := Next(s, Poll(id, p)); z != s ==>
      && id in s.workers && p in s.workers[id].positions && id in z.workers && z.workers[id].pc.Claiming?
      && z.workers[id].pc.f.partition == p && z.workers[id].pc.f.offset == s.workers[id].positions[p]
      && z.workers[id].positions == s.workers[id].positions[p := s.workers[id].positions[p] + 1]
    ensures var z := Next(s, Assign(id, p)); z != s ==>
      && p < |s.committed| && id in z.workers && p in z.workers[id].positions
      && z.workers[id].positions[p] == s.committed[p]
  {}

  /**
  A committed message is behind the group for good: whatever happens after the commit, short
  of another commit of the same partition, a consumer that is assigned the partition then
  and polls it reads beyond the committed message.
  */
  lemma CommittedMessageIsNotReadAgain(s: Sys, id: WorkerId, raised: bool, steps: seq<Step>, reader: WorkerId)
    requires id in s.workers && s.workers[id].pc.Handled? && s.workers[id].pc.f.partition < |s.committed|
    requires CommitsOf(Next(s, CommitOffset(id, true, raised)), steps, s.workers[id].pc.f.partition) == 0
    ensures var f := s.workers[id].pc.f;
      var z := Exec(Next(s, CommitOffset(id, true, raised)), steps);
      var placed := Next(z, Assign(reader, f.partition));
      var polled := Next(placed, Poll(reader, f.partition));
      placed != z && polled != placed ==> polled.workers[reader].pc.f.offset > f.offset
  {
    var p := s.workers[id].pc.f.partition;
    var committed := Next(s, CommitOffset(id, true, raised));
    CommitPassesMessage(s, id, raised);
    CommittedStays(committed, steps, p);
    var z := Exec(committed, steps);
    PollReadsOn(z, reader, p);
    PollReadsOn(Next(z, Assign(reader, p)), reader, p);
  }
}
