/** What acceptance by the turn-taking protocol means for the log itself, read without the
    observer. With `TurnProtocol.RunKeeps` these hold of the log of every run. */
module TurnLog {
  import opened Common
  import opened TurnWatch
  import opened TurnModel
  import opened TurnProtocol

  ghost predicate Accepted(log: seq<Act>) { Watched(log).proto.ok }

  lemma RunAccepted(c: Config, inputs: seq<Input>)
    ensures Accepted(Run(c, inputs).seen.log)
  {
    RunKeeps(c, inputs);
  }

  /** The observer at a prefix, for the inductions below. */
  lemma Shorter(log: seq<Act>, n: nat)
    requires 0 < n == |log| && Accepted(log)
    ensures Accepted(log[..n - 1])
    ensures Watched(log).proto == ProtoStep(Watched(log[..n - 1]).proto, log[n - 1])
    ensures Allowed(Watched(log[..n - 1]).proto, log[n - 1])
  {}

  lemma {:induction false} PrefixAccepted(log: seq<Act>, n: nat)
    requires n <= |log| && Accepted(log)
    ensures Accepted(log[..n])
    decreases |log|
  {
    if n < |log| {
      Shorter(log, |log|);
      PrefixAccepted(log[..|log| - 1], n);
      assert log[..|log| - 1][..n] == log[..n];
    } else {
      assert log[..n] == log;
    }
  }

  /** Every step of an accepted log was allowed where it happened. */
  lemma AllowedAt(log: seq<Act>, i: nat)
    requires i < |log| && Accepted(log)
    ensures Allowed(Watched(log[..i]).proto, log[i])
    ensures Watched(log[..i + 1]).proto == ProtoStep(Watched(log[..i]).proto, log[i])
    ensures Accepted(log[..i]) && Accepted(log[..i + 1])
  {
    PrefixAccepted(log, i + 1);
    var p := log[..i + 1];
    assert p[..i] == log[..i] && p[i] == log[i];
  }

  // --- cancelled replies

  lemma {:induction false} LiveIsNewest(log: seq<Act>)
    requires Accepted(log)
    ensures var p := Watched(log).proto; p.live.Some? ==> p.live.value + 1 == p.replies
  {
    if log != [] {
      Shorter(log, |log|);
      LiveIsNewest(log[..|log| - 1]);
    }
  }

  lemma {:induction false} StaysCancelled(log: seq<Act>, i: nat, id: nat)
    requires Accepted(log) && i < |log| && log[i] == ReplyCancelled(id)
    ensures var p := Watched(log).proto; p.live != Some(id) && id < p.replies
    decreases |log|
  {
    Shorter(log, |log|);
    var before := log[..|log| - 1];
    LiveIsNewest(before);
    if i < |log| - 1 {
      StaysCancelled(before, i, id);
    }
  }

  /** No audio of a reply is written after the reply was cancelled, and it is not opened
      again. */
  lemma NothingAfterCancel(log: seq<Act>, i: nat, j: nat, id: nat)
    requires Accepted(log) && i < j < |log| && log[i] == ReplyCancelled(id)
    ensures log[j].ChunkWritten? ==> log[j].id != id
    ensures log[j] != ReplyOpened(id) && log[j] != ReplyCancelled(id)
  {
    AllowedAt(log, j);
    StaysCancelled(log[..j], i, id);
  }

  lemma {:induction false} LiveUntilCancelled(log: seq<Act>, i: nat, id: nat)
    requires Accepted(log) && i < |log| && log[i] == ReplyOpened(id)
    requires forall k :: i < k < |log| ==> log[k] != ReplyCancelled(id)
    ensures Watched(log).proto.live == Some(id)
    decreases |log|
  {
    Shorter(log, |log|);
    if i < |log| - 1 {
      LiveUntilCancelled(log[..|log| - 1], i, id);
    }
  }

  /** At most one reply pipeline is live: a second one opens only after the first was
      cancelled. */
  lemma OneReplyAtATime(log: seq<Act>, i: nat, j: nat)
    requires Accepted(log) && i < j < |log| && log[i].ReplyOpened? && log[j].ReplyOpened?
    ensures exists k :: i < k < j && log[k] == ReplyCancelled(log[i].id)
  {
    AllowedAt(log, j);
    if forall k :: i < k < j ==> log[k] != ReplyCancelled(log[i].id) {
      LiveUntilCancelled(log[..j], i, log[i].id);
    }
  }

  // --- ducking

  lemma {:induction false} DuckedSince(log: seq<Act>, i: nat)
    requires Accepted(log) && i < |log| && log[i].DuckSet?
    requires forall k :: i < k < |log| ==> !log[k].DuckSet?
    ensures Watched(log).proto.ducked == log[i].on
    decreases |log|
  {
    Shorter(log, |log|);
    if i < |log| - 1 {
      DuckedSince(log[..|log| - 1], i);
    }
  }

  /** Ducking is switched on and off in strict alternation. */
  lemma DuckingAlternates(log: seq<Act>, i: nat, j: nat)
    requires Accepted(log) && i < j < |log| && log[i].DuckSet? && log[j].DuckSet?
    requires forall k :: i < k < j ==> !log[k].DuckSet?
    ensures log[j].on == !log[i].on
  {
    AllowedAt(log, j);
    DuckedSince(log[..j], i);
  }

  // --- agent turns

  function AgentTurns(acts: seq<Act>): nat {
    if acts == [] then 0
    else AgentTurns(acts[..|acts| - 1]) + if acts[|acts| - 1].AgentTurn? then 1 else 0
  }

  lemma {:induction false} TurnsSince(log: seq<Act>, i: nat)
    requires Accepted(log) && i < |log| && log[i].StateChange?
    requires forall k :: i < k < |log| ==> !log[k].StateChange?
    ensures var p := Watched(log).proto;
            && p.phase == log[i].dst
            && AgentTurns(log[i + 1..]) == if p.turned then 1 else 0
    decreases |log|
  {
    Shorter(log, |log|);
    if i < |log| - 1 {
      var before := log[..|log| - 1];
      TurnsSince(before, i);
      assert log[i + 1..][..|log| - i - 2] == before[i + 1..];
    }
  }

  /** A stay in the speaking state reports exactly one agent turn. */
  lemma OneAgentTurnPerEpisode(log: seq<Act>, i: nat, j: nat)
    requires Accepted(log) && i < j < |log|
    requires log[i].StateChange? && log[i].dst == Speaking && log[j].StateChange?
    requires forall k :: i < k < j ==> !log[k].StateChange?
    ensures log[j] == StateChange(Speaking, Listening)
    ensures AgentTurns(log[i + 1..j]) == 1
  {
    AllowedAt(log, j);
    TurnsSince(log[..j], i);
    assert log[..j][i + 1..] == log[i + 1..j];
  }

  /** Every interrupted agent turn of a run ends in the cut mark. */
  lemma InterruptedTurnsAreMarked(c: Config, inputs: seq<Input>, i: nat)
    requires i < |Run(c, inputs).seen.log| && Run(c, inputs).seen.log[i].AgentTurn?
    requires Run(c, inputs).seen.log[i].interrupted
    ensures var text := Run(c, inputs).seen.log[i].text; text != "" && text[|text| - 1] == '—'
  {
    hide Run;
    RunAccepted(c, inputs);
    AllowedAt(Run(c, inputs).seen.log, i);
  }

  /** Consecutive state changes are linked, and each is one of the six edges. */
  lemma OnlyEdges(log: seq<Act>, i: nat, j: nat)
    requires Accepted(log) && i < j < |log| && log[i].StateChange? && log[j].StateChange?
    requires forall k :: i < k < j ==> !log[k].StateChange?
    ensures log[j].src == log[i].dst && Edge(log[j].src, log[j].dst)
  {
    AllowedAt(log, j);
    TurnsSince(log[..j], i);
  }
}
