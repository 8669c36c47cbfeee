/** The Raft node as the mutable object it is: every method is proved to do what the step
    function of the same name does to its snapshot, and to hand the same envelopes to the
    transport in the same order. */
module RaftNodeObject {
  import opened Wrappers
  import opened LedgerModel
  import opened LedgerObject
  import opened RaftTypes
  import opened RaftLog
  import opened RaftStorage
  import S = RaftStep

  class RaftNode {
    const id: NodeId
    const peers: seq<NodeId>
    const electionTimeoutMin: real
    const heartbeatInterval: real
    const storage: InMemoryStorage
    const stateMachine: LedgerStateMachine

    var role: Role
    var leaderId: Option<NodeId>
    var commitIndex: nat
    var lastApplied: nat
    var nextIndex: map<NodeId, int>
    var matchIndex: map<NodeId, int>
    var votesReceived: set<NodeId>
    var prevotesReceived: set<NodeId>
    var prevoteTargetTerm: int
    var electionDeadline: real
    var nextHeartbeatDeadline: Option<real>
    var lastLeaderContact: Option<real>
    var outbox: seq<Envelope>  // everything handed to the transport, in order

    /** A leader tracks how far each peer has matched, and nobody else. */
    ghost predicate Valid()
      reads this
    {
      role == Leader ==> matchIndex.Keys == (set p | p in peers)
    }

    function Snapshot(): S.Node
      reads this, storage, stateMachine
    {
      S.Node(id, peers, electionTimeoutMin, heartbeatInterval,
             storage.currentTerm, storage.votedFor, storage.log,
             role, leaderId, commitIndex, lastApplied, nextIndex, matchIndex,
             votesReceived, prevotesReceived, prevoteTargetTerm,
             electionDeadline, nextHeartbeatDeadline, lastLeaderContact, stateMachine.Snapshot())
    }

    /** A fresh node over existing storage, started: this is also what a restart does. */
    constructor (id: NodeId, peers: seq<NodeId>, electionTimeoutMin: real, heartbeatInterval: real,
                 storage: InMemoryStorage, stateMachine: LedgerStateMachine, now: real, draw: real)
      ensures Valid() && outbox == []
      ensures this.storage == storage && this.stateMachine == stateMachine
      ensures Snapshot() == S.Boot(id, peers, electionTimeoutMin, heartbeatInterval,
                                   storage.currentTerm, storage.votedFor, storage.log, stateMachine.Snapshot(),
                                   now, draw)
    {
      this.id, this.peers := id, peers;
      this.electionTimeoutMin, this.heartbeatInterval := electionTimeoutMin, heartbeatInterval;
      this.storage, this.stateMachine := storage, stateMachine;
      role, leaderId, commitIndex, lastApplied := Follower, None, 0, 0;
      nextIndex, matchIndex := map[], map[];
      votesReceived, prevotesReceived, prevoteTargetTerm := {}, {}, -1;
      electionDeadline, nextHeartbeatDeadline, lastLeaderContact := now + draw, None, None;
      outbox := [];
    }

    method Send(recipient: NodeId, message: Message)
      modifies this`outbox
      ensures outbox == old(outbox) + [Envelope(id, recipient, message)]
    {
      outbox := outbox + [Envelope(id, recipient, message)];
    }

    method Broadcast(message: Message)
      modifies this`outbox
      ensures outbox == old(outbox) + S.Broadcast(Snapshot(), message)
    {
      ghost var all := S.Broadcast(Snapshot(), message);
      for i := 0 to |peers|
        invariant outbox == old(outbox) + all[..i]
      {
        Send(peers[i], message);
        assert all[..i + 1] == all[..i] + [all[i]];
      }
      assert all[..|peers|] == all;
    }

    // ---- replication ----

    method SendAppendEntriesTo(peer: NodeId)
      modifies this`outbox
      ensures outbox == old(outbox) + [S.AppendTo(Snapshot(), peer)]
    {
      var nextIdx := if peer in nextIndex then nextIndex[peer] else storage.LastIndex() + 1;
      var prevLogIndex := nextIdx - 1;
      var prevLogTerm := TermAt(storage.log, prevLogIndex);
      var entries := EntriesFrom(storage.log, nextIdx);
      Send(peer, AppendEntries(storage.currentTerm, id, prevLogIndex, prevLogTerm, entries, commitIndex));
    }

    method BroadcastAppendEntries(now: real)
      requires Valid()
      modifies this`outbox, this`nextHeartbeatDeadline
      ensures Valid() && Snapshot() == S.BroadcastAppend(old(Snapshot()), now).node
      ensures outbox == old(outbox) + S.BroadcastAppend(old(Snapshot()), now).sent
    {
      nextHeartbeatDeadline := Some(now + heartbeatInterval);
      ghost var all := S.Appends(Snapshot());
      for i := 0 to |peers|
        invariant Snapshot() == S.BroadcastAppend(old(Snapshot()), now).node
        invariant outbox == old(outbox) + all[..i]
      {
        SendAppendEntriesTo(peers[i]);
        assert all[..i + 1] == all[..i] + [all[i]];
      }
      assert all[..|peers|] == all;
    }

    /** Appends the command as a new entry, if this node leads; it says so at once, before the
        entry is committed. */
    method Propose(command: LedgerEntry, now: real) returns (entry: Option<LogEntry>)
      requires Valid()
      modifies this, storage
      ensures Valid() && Snapshot() == S.Propose(old(Snapshot()), command, now).node
      ensures outbox == old(outbox) + S.Propose(old(Snapshot()), command, now).sent
      ensures old(role) == Leader ==>
                entry == Some(LogEntry(old(storage.currentTerm), |old(storage.log)| + 1, command))
      ensures old(role) != Leader ==> entry == None
    {
      if role != Leader {
        return None;
      }
      var e := LogEntry(storage.currentTerm, storage.LastIndex() + 1, command);
      storage.Append([e]);
      BroadcastAppendEntries(now);
      entry := Some(e);
    }

    // ---- role changes ----

    method ResetElectionDeadline(now: real, draw: real)
      modifies this`electionDeadline
      ensures Snapshot() == S.ResetDeadline(old(Snapshot()), now, draw)
    {
      electionDeadline := now + draw;
    }

    method BecomeFollower(term: nat, now: real, draw: real)
      modifies this`role, this`leaderId, this`votesReceived, this`electionDeadline, storage
      ensures Valid() && Snapshot() == S.BecomeFollower(old(Snapshot()), term, now, draw)
    {
      storage.SetCurrentTerm(term);
      storage.SetVotedFor(None);
      role := Follower;
      leaderId := None;
      votesReceived := {};
      ResetElectionDeadline(now, draw);
    }

    method TakeLeadership()
      modifies this`role, this`leaderId, this`nextIndex, this`matchIndex
      ensures Valid() && Snapshot() == S.Leadership(old(Snapshot()))
    {
      role := Leader;
      leaderId := Some(id);
      var lastIndex := storage.LastIndex();
      nextIndex := map p | p in peers :: lastIndex + 1;
      matchIndex := map p | p in peers :: 0;
      assert nextIndex == S.Leadership(old(Snapshot())).nextIndex;
    }

    method BecomeLeader(now: real)
      modifies this
      ensures Valid() && Snapshot() == S.BecomeLeader(old(Snapshot()), now).node
      ensures outbox == old(outbox) + S.BecomeLeader(old(Snapshot()), now).sent
    {
      hide S.Appends, S.Leadership;
      TakeLeadership();
      BroadcastAppendEntries(now);
    }

    method MaybeBecomeLeaderFromVotes(now: real)
      requires Valid()
      modifies this
      ensures Valid() && Snapshot() == S.MaybeBecomeLeader(old(Snapshot()), now).node
      ensures outbox == old(outbox) + S.MaybeBecomeLeader(old(Snapshot()), now).sent
    {
      if role != Candidate {
        return;
      }
      var majority := (|peers| + 1) / 2 + 1;
      if |votesReceived| >= majority {
        BecomeLeader(now);
      }
    }

    method BecomeCandidate(now: real, draw: real)
      modifies this, storage
      ensures Valid() && Snapshot() == S.BecomeCandidate(old(Snapshot()), now, draw).node
      ensures outbox == old(outbox) + S.BecomeCandidate(old(Snapshot()), now, draw).sent
    {
      hide S.Broadcast, S.MaybeBecomeLeader, LastTerm;
      var newTerm := storage.currentTerm + 1;
      storage.SetCurrentTerm(newTerm);
      storage.SetVotedFor(Some(id));
      role := Candidate;
      leaderId := None;
      votesReceived := {id};
      ResetElectionDeadline(now, draw);
      assert Snapshot() == S.Candidacy(old(Snapshot()), now, draw);
      Broadcast(RequestVote(storage.currentTerm, id, storage.LastIndex(), LastTerm(storage.log)));
      MaybeBecomeLeaderFromVotes(now);
    }

    method MaybeWinPrevote(now: real, draw: real)
      requires Valid()
      modifies this, storage
      ensures Valid() && Snapshot() == S.MaybeWinPrevote(old(Snapshot()), now, draw).node
      ensures outbox == old(outbox) + S.MaybeWinPrevote(old(Snapshot()), now, draw).sent
    {
      var majority := (|peers| + 1) / 2 + 1;
      if |prevotesReceived| >= majority {
        BecomeCandidate(now, draw);
      }
    }

    method OpenPrevoteRound(now: real, draw: real)
      modifies this`role, this`leaderId, this`prevoteTargetTerm, this`prevotesReceived, this`electionDeadline
      ensures Valid() && Snapshot() == S.PrevoteRound(old(Snapshot()), now, draw)
    {
      role := Follower;
      leaderId := None;
      prevoteTargetTerm := storage.currentTerm + 1;
      prevotesReceived := {id};
      ResetElectionDeadline(now, draw);
    }

    method StartPrevote(now: real, draw: real)
      modifies this, storage
      ensures Valid() && Snapshot() == S.StartPrevote(old(Snapshot()), now, draw).node
      ensures outbox == old(outbox) + S.StartPrevote(old(Snapshot()), now, draw).sent
    {
      hide S.Broadcast, S.MaybeWinPrevote, S.PrevoteRound, LastTerm;
      OpenPrevoteRound(now, draw);
      Broadcast(PreVote(storage.currentTerm + 1, id, storage.LastIndex(), LastTerm(storage.log)));
      MaybeWinPrevote(now, draw);
    }

    // ---- commit and apply ----

    /** Every entry that the loop looks up exists: the requires clause is met wherever the
        commit index has just been moved. */
    method ApplyCommitted()
      requires commitIndex <= |storage.log|
      modifies this`lastApplied, stateMachine
      ensures Snapshot() == S.ApplyCommitted(old(Snapshot()))
    {
      ghost var start, ledger := lastApplied, stateMachine.Snapshot();
      assert lastApplied < commitIndex ==> Commands(storage.log[start..start]) == [];
      while lastApplied < commitIndex
        invariant start >= commitIndex ==> lastApplied == start && stateMachine.Snapshot() == ledger
        invariant start < commitIndex ==>
                    && start <= lastApplied <= commitIndex
                    && stateMachine.Snapshot() == Fold(ledger, Commands(storage.log[start..lastApplied]))
      {
        ghost var before := Commands(storage.log[start..lastApplied]);
        lastApplied := lastApplied + 1;
        var entry := storage.Get(lastApplied);
        assert entry.Some?;
        ghost var after := Commands(storage.log[start..lastApplied]);
        assert after[..|after| - 1] == before && after[|after| - 1] == entry.value.command;
        var _ := stateMachine.Apply(entry.value.command);
      }
    }

    method MatchIndexes() returns (values: seq<int>)
      requires Valid() && role == Leader
      ensures values == S.MatchIndexes(Snapshot())
    {
      values := [storage.LastIndex()];
      for i := 0 to |peers|
        invariant values == [|storage.log|] + S.PeerMatches(peers, matchIndex)[..i]
      {
        assert peers[i] in (set p | p in peers);
        values := values + [matchIndex[peers[i]]];
      }
    }

    method AdvanceCommitIndex()
      requires Valid() && role == Leader
      modifies this`commitIndex, this`lastApplied, stateMachine
      ensures Valid() && Snapshot() == S.AdvanceCommitIndex(old(Snapshot()))
    {
      hide S.SortDescending, Fold, Commands;
      var values := MatchIndexes();
      var sorted := S.SortDescending(values);
      var majority := (|peers| + 1) / 2 + 1;
      var candidateN := sorted[majority - 1];
      if candidateN > commitIndex && TermAt(storage.log, candidateN) == storage.currentTerm {
        commitIndex := candidateN;
        ApplyCommitted();
      }
    }

    // ---- log helpers ----

    method FirstIndexOfTerm(term: int, fromIndex: int) returns (r: int)
      ensures r == RaftLog.FirstIndexOfTerm(storage.log, term, fromIndex)
    {
      var index := fromIndex;
      while index > 0 && TermAt(storage.log, index) == term
        invariant RaftLog.FirstIndexOfTerm(storage.log, term, fromIndex) ==
                    RaftLog.FirstIndexOfTerm(storage.log, term, index)
      {
        index := index - 1;
      }
      r := index + 1;
    }

    method LastIndexOfTerm(term: int) returns (r: int)
      ensures r == RaftLog.LastIndexOfTerm(storage.log, term, |storage.log|)
    {
      var index := storage.LastIndex();
      while index > 0
        invariant RaftLog.LastIndexOfTerm(storage.log, term, |storage.log|) ==
                    RaftLog.LastIndexOfTerm(storage.log, term, index)
      {
        var t := TermAt(storage.log, index);
        if t == term {
          return index;
        }
        if t < term {
          return 0;
        }
        index := index - 1;
      }
      r := 0;
    }

    // ---- request handlers ----

    method HandlePreVote(args: Message, now: real) returns (reply: Message)
      requires args.PreVote?
      ensures reply == S.HandlePreVote(Snapshot(), args, now)
    {
      var currentTerm := storage.currentTerm;
      if leaderId.Some? && lastLeaderContact.Some? && now - lastLeaderContact.value < electionTimeoutMin {
        return PreVoteReply(currentTerm, false, id);
      }
      if args.term <= currentTerm {
        return PreVoteReply(currentTerm, false, id);
      }
      if !UpToDate(storage.log, args.lastIndex, args.lastTerm) {
        return PreVoteReply(currentTerm, false, id);
      }
      reply := PreVoteReply(currentTerm, true, id);
    }

    method HandleRequestVote(args: Message, now: real, draw: real) returns (reply: Message)
      requires Valid() && args.RequestVote?
      modifies this`role, this`leaderId, this`votesReceived, this`electionDeadline, storage
      ensures Valid() && S.Answer(Snapshot(), reply) == S.HandleRequestVote(old(Snapshot()), args, now, draw)
    {
      if args.term > storage.currentTerm {
        BecomeFollower(args.term, now, draw);
      }
      var currentTerm := storage.currentTerm;
      if args.term < currentTerm {
        return VoteReply(currentTerm, false, id);
      }
      var votedFor := storage.votedFor;
      var canVote := votedFor.None? || votedFor.value == args.candidate;
      var logOk := UpToDate(storage.log, args.lastIndex, args.lastTerm);
      if canVote && logOk {
        storage.SetVotedFor(Some(args.candidate));
        ResetElectionDeadline(now, draw);
        return VoteReply(currentTerm, true, id);
      }
      reply := VoteReply(currentTerm, false, id);
    }

    /** The entry loop of the AppendEntries handler: the first missing or conflicting entry
        replaces the tail; entries already present are left alone. */
    method MergeEntries(prevIndex: nat, entries: Log)
      modifies storage`log
      ensures storage.log == Merge(old(storage.log), prevIndex, entries, 0)
    {
      var insertAt := prevIndex + 1;
      var offset := 0;
      while offset < |entries|
        invariant 0 <= offset <= |entries|
        invariant storage.log == old(storage.log)
        invariant Merge(old(storage.log), prevIndex, entries, 0) == Merge(old(storage.log), prevIndex, entries, offset)
      {
        var idx := insertAt + offset;
        var existingTerm := TermAt(storage.log, idx);
        if existingTerm == -1 {
          storage.Append(entries[offset..]);
          return;
        }
        if existingTerm != entries[offset].term {
          var truncated := storage.TruncateFrom(idx);
          assert truncated;
          storage.Append(entries[offset..]);
          return;
        }
        offset := offset + 1;
      }
    }

    method Follow(args: Message) returns (reply: Message)
      requires Valid() && args.AppendEntries? && args.prevIndex >= 0
      modifies this`commitIndex, this`lastApplied, storage`log, stateMachine
      ensures Valid() && S.Answer(Snapshot(), reply) == S.Follow(old(Snapshot()), args)
    {
      hide Merge, Fold, RaftLog.FirstIndexOfTerm, Commands;
      var currentTerm := storage.currentTerm;
      if args.prevIndex > 0 {
        var termAtPrev := TermAt(storage.log, args.prevIndex);
        if termAtPrev == -1 {
          return AppendReply(currentTerm, false, id, 0, storage.LastIndex() + 1, -1);
        }
        if termAtPrev != args.prevTerm {
          var conflictIndex := FirstIndexOfTerm(termAtPrev, args.prevIndex);
          return AppendReply(currentTerm, false, id, 0, conflictIndex, termAtPrev);
        }
      }
      MergeEntries(args.prevIndex, args.entries);
      if args.leaderCommit > commitIndex {
        commitIndex := Min(args.leaderCommit, storage.LastIndex());
        ApplyCommitted();
      }
      reply := AppendReply(currentTerm, true, id, args.prevIndex + |args.entries|, 0, -1);
    }

    method HandleAppendEntries(args: Message, now: real, draw: real) returns (reply: Message)
      requires Valid() && args.AppendEntries? && args.prevIndex >= 0
      modifies this, storage, stateMachine
      ensures Valid() && outbox == old(outbox)
      ensures S.Answer(Snapshot(), reply) == S.HandleAppendEntries(old(Snapshot()), args, now, draw)
    {
      hide S.Follow;
      if args.term > storage.currentTerm {
        BecomeFollower(args.term, now, draw);
      }
      if args.term < storage.currentTerm {
        return AppendReply(storage.currentTerm, false, id, 0, 0, -1);
      }
      role := Follower;
      leaderId := Some(args.leader);
      lastLeaderContact := Some(now);
      ResetElectionDeadline(now, draw);
      assert Snapshot() == S.Recognise(S.Adopt(old(Snapshot()), args.term, now, draw), args.leader, now, draw);
      reply := Follow(args);
    }

    // ---- reply handlers ----

    method HandlePreVoteReply(reply: Message, now: real, draw: real)
      requires Valid() && reply.PreVoteReply?
      modifies this, storage
      ensures Valid() && Snapshot() == S.HandlePreVoteReply(old(Snapshot()), reply, now, draw).node
      ensures outbox == old(outbox) + S.HandlePreVoteReply(old(Snapshot()), reply, now, draw).sent
    {
      if reply.term > storage.currentTerm {
        BecomeFollower(reply.term, now, draw);
        return;
      }
      if role != Follower || prevoteTargetTerm != storage.currentTerm + 1 {
        return;
      }
      if reply.granted {
        prevotesReceived := prevotesReceived + {reply.voter};
        MaybeWinPrevote(now, draw);
      }
    }

    method HandleRequestVoteReply(reply: Message, now: real, draw: real)
      requires Valid() && reply.VoteReply?
      modifies this, storage
      ensures Valid() && Snapshot() == S.HandleVoteReply(old(Snapshot()), reply, now, draw).node
      ensures outbox == old(outbox) + S.HandleVoteReply(old(Snapshot()), reply, now, draw).sent
    {
      if reply.term > storage.currentTerm {
        BecomeFollower(reply.term, now, draw);
        return;
      }
      if role != Candidate || reply.term != storage.currentTerm {
        return;
      }
      if reply.granted {
        votesReceived := votesReceived + {reply.voter};
        MaybeBecomeLeaderFromVotes(now);
      }
    }

    method HandleAppendEntriesReply(sender: NodeId, reply: Message, now: real, draw: real)
      requires Valid() && reply.AppendReply? && (reply.success ==> sender in peers)
      modifies this, storage, stateMachine
      ensures Valid() && Snapshot() == S.HandleAppendReply(old(Snapshot()), sender, reply, now, draw).node
      ensures outbox == old(outbox) + S.HandleAppendReply(old(Snapshot()), sender, reply, now, draw).sent
    {
      if reply.term > storage.currentTerm {
        BecomeFollower(reply.term, now, draw);
        return;
      }
      if role != Leader || reply.term != storage.currentTerm {
        return;
      }
      if reply.success {
        if reply.matchIndex > Get(matchIndex, sender, 0) {
          matchIndex := matchIndex[sender := reply.matchIndex];
        }
        nextIndex := nextIndex[sender := matchIndex[sender] + 1];
        assert Snapshot() == S.RecordMatch(old(Snapshot()), sender, reply.matchIndex);
        AdvanceCommitIndex();
      } else {
        if reply.conflictTerm != -1 {
          var lastIdx := LastIndexOfTerm(reply.conflictTerm);
          nextIndex := nextIndex[sender := if lastIdx > 0 then lastIdx + 1 else reply.conflictIndex];
        } else {
          nextIndex := nextIndex[sender := Max(1, reply.conflictIndex)];
        }
        SendAppendEntriesTo(sender);
      }
    }

    // ---- entry points ----

    method Tick(now: real, draw: real)
      requires Valid()
      modifies this, storage
      ensures Valid() && Snapshot() == S.Tick(old(Snapshot()), now, draw).node
      ensures outbox == old(outbox) + S.Tick(old(Snapshot()), now, draw).sent
    {
      if role == Leader {
        if nextHeartbeatDeadline.Some? && now >= nextHeartbeatDeadline.value {
          BroadcastAppendEntries(now);
        }
      } else {
        if now >= electionDeadline {
          StartPrevote(now, draw);
        }
      }
    }

    /** The dispatch on an incoming envelope.  Replies go back to the envelope's sender. */
    method Receive(envelope: Envelope, now: real, draw: real)
      requires Valid() && S.Receivable(envelope.message)
      requires envelope.message.AppendReply? && envelope.message.success ==> envelope.sender in peers
      modifies this, storage, stateMachine
      ensures Valid() && Snapshot() == S.Receive(old(Snapshot()), envelope, now, draw).node
      ensures outbox == old(outbox) + S.Receive(old(Snapshot()), envelope, now, draw).sent
    {
      hide S.HandleRequestVote, S.HandleAppendEntries, S.HandlePreVote, S.HandlePreVoteReply;
      hide S.HandleVoteReply, S.HandleAppendReply;
      var message, sender := envelope.message, envelope.sender;
      match message
      case RequestVote(_, _, _, _) =>
        var reply := HandleRequestVote(message, now, draw);
        Send(sender, reply);
      case VoteReply(_, _, _) =>
        HandleRequestVoteReply(message, now, draw);
      case AppendEntries(_, _, _, _, _, _) =>
        var reply := HandleAppendEntries(message, now, draw);
        Send(sender, reply);
      case AppendReply(_, _, _, _, _, _) =>
        HandleAppendEntriesReply(sender, message, now, draw);
      case PreVote(_, _, _, _) =>
        var reply := HandlePreVote(message, now);
        Send(sender, reply);
      case PreVoteReply(_, _, _) =>
        HandlePreVoteReply(message, now, draw);
    }
  }
}
