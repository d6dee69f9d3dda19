/** Committing an epoch keeps the protocol invariant. */
module FlushProof {
  import opened Layout
  import opened Protocol
  import opened Invariant
  import opened Consumers

  /** What a commit assumes, without the rest of the state. */
  ghost predicate Committable(index: Files, nextRetire: nat, ledger: map<nat, Slot>, ch: Changes, ids: map<Key, nat>) {
    && ids.Keys == Replaced(index, ch)
    && (forall k :: k in ids ==> nextRetire < ids[k] <= nextRetire + |ids|)
    && Injective(ids)
    && (forall k :: k in ch && ch[k].Some? ==>
         ch[k].value.id in ledger && ledger[ch[k].value.id] == Slot(ch[k].value, Private))
    && (forall j, k :: j in ch && k in ch && ch[j].Some? && ch[k].Some? && j != k ==> ch[j].value.id != ch[k].value.id)
  }

  lemma CommitAdvancesLog(log: seq<Update>, hist: seq<Files>, index: Files, files: Files, u: Update)
    requires |hist| == |log| + 1 && LogInv(log, hist, index, files) && u.id == |log| + 1
    ensures LogInv(log + [u], hist + [Apply(index, u)], Apply(index, u), Apply(files, u))
  {
    var log', hist' := log + [u], hist + [Apply(index, u)];
    forall n | 0 <= n < |log'| ensures log'[n].id == n + 1 && hist'[n + 1] == Apply(hist'[n], log'[n]) {
      if n < |log| {
        assert hist'[n + 1] == hist[n + 1] && hist'[n] == hist[n];
      }
    }
    hide Apply;
  }

  /** Relabelling moves nothing: entries stay, and only roles of touched keys and versions change. */
  lemma RelabelAt(ledger: map<nat, Slot>, ch: Changes, ids: map<Key, nat>, i: nat)
    requires i in ledger
    ensures i in Relabel(ledger, ch, ids) <==> (ledger[i].role.Published? && ledger[i].role.key in ch ==> ledger[i].role.key in ids)
    ensures i in Relabel(ledger, ch, ids) ==> Relabel(ledger, ch, ids)[i].entry == ledger[i].entry
    ensures i in Relabel(ledger, ch, ids) && ledger[i].role.Published? && ledger[i].role.key in ch ==>
      Relabel(ledger, ch, ids)[i].role == Retired(ids[ledger[i].role.key])
    ensures i in Relabel(ledger, ch, ids) && !(ledger[i].role.Published? && ledger[i].role.key in ch) && !ledger[i].role.Private? ==>
      Relabel(ledger, ch, ids)[i] == ledger[i]
    ensures ledger[i].role.Private? && !(exists k :: k in ch && ch[k] == Some(ledger[i].entry)) ==> Relabel(ledger, ch, ids)[i] == ledger[i]
    ensures ledger[i].role.Private? && (exists k :: k in ch && ch[k] == Some(ledger[i].entry)) ==>
      exists k :: k in ch && ch[k] == Some(ledger[i].entry) && Relabel(ledger, ch, ids)[i].role == Published(k)
  {
  }

  lemma CommitLedger(ledger: map<nat, Slot>, mem: Memory, minted: nat, ch: Changes, ids: map<Key, nat>)
    requires LedgerInv(ledger, mem, minted)
    ensures LedgerInv(Relabel(ledger, ch, ids), mem, minted)
  {
    var ledger' := Relabel(ledger, ch, ids);
    forall i | i in ledger'
      ensures i in ledger && ledger'[i].entry == ledger[i].entry && (ledger[i].role.Reserved? ==> ledger'[i].role.Reserved?)
    {
      RelabelAt(ledger, ch, ids, i);
    }
    hide Relabel, Intact, Disjoint, Covers;
  }

  lemma RecordsOf(index: Files, ids: map<Key, nat>, u: nat)
    requires ids.Keys <= index.Keys
    requires Injective(ids)
    ensures forall k :: k in ids ==> ids[k] in NewRecords(index, ids, u) && NewRecords(index, ids, u)[ids[k]] == Record(k, index[k], u)
    ensures forall r :: r in NewRecords(index, ids, u) ==> NewRecords(index, ids, u)[r].key in ids && ids[NewRecords(index, ids, u)[r].key] == r
  {
  }

  lemma CommitRoles(index: Files, nextRetire: nat, ledger: map<nat, Slot>, retired: map<nat, Record>, ch: Changes, ids: map<Key, nat>, u: Update)
    requires RoleInv(ledger, index, retired) && Committable(index, nextRetire, ledger, ch, ids)
    requires forall i :: i in ledger ==> ledger[i].entry.id == i
    requires forall r :: r in retired ==> r <= nextRetire
    requires u.entries == Added(ch) && u.removals == Removed(index, ch)
    ensures RoleInv(Relabel(ledger, ch, ids), Apply(index, u), retired + NewRecords(index, ids, u.id))
  {
    hide IndexRoles, RecordRoles, SlotRoles, Relabel, Apply, NewRecords;
    RecordsOf(index, ids, u.id);
    hide Committable;
    RolesOfIndex(index, nextRetire, ledger, retired, ch, ids, u);
    RolesOfRecords(index, nextRetire, ledger, retired, ch, ids, u, NewRecords(index, ids, u.id));
    RolesOfSlots(index, nextRetire, ledger, retired, ch, ids, u, NewRecords(index, ids, u.id));
  }

  lemma RolesOfIndex(index: Files, nextRetire: nat, ledger: map<nat, Slot>, retired: map<nat, Record>, ch: Changes, ids: map<Key, nat>, u: Update)
    requires RoleInv(ledger, index, retired) && Committable(index, nextRetire, ledger, ch, ids)
    requires u.entries == Added(ch) && u.removals == Removed(index, ch)
    ensures IndexRoles(Relabel(ledger, ch, ids), Apply(index, u))
  {
    hide Relabel;
    var index' := Apply(index, u);
    forall k | k in index'
      ensures index'[k].id in Relabel(ledger, ch, ids) && Relabel(ledger, ch, ids)[index'[k].id] == Slot(index'[k], Published(k))
    {
      RelabelAt(ledger, ch, ids, index'[k].id);
    }
  }

  lemma RolesOfRecords(index: Files, nextRetire: nat, ledger: map<nat, Slot>, retired: map<nat, Record>, ch: Changes, ids: map<Key, nat>, u: Update, added: map<nat, Record>)
    requires RoleInv(ledger, index, retired) && Committable(index, nextRetire, ledger, ch, ids)
    requires forall r :: r in added ==> added[r].key in ids && added[r].entry == index[added[r].key] && ids[added[r].key] == r
    ensures RecordRoles(Relabel(ledger, ch, ids), retired + added)
  {
    hide Relabel;
    var retired' := retired + added;
    forall r | r in retired'
      ensures retired'[r].entry.Occupies() && retired'[r].entry.id in Relabel(ledger, ch, ids)
      ensures Relabel(ledger, ch, ids)[retired'[r].entry.id] == Slot(retired'[r].entry, Retired(r))
    {
      RelabelAt(ledger, ch, ids, retired'[r].entry.id);
    }
  }

  lemma RolesOfSlots(index: Files, nextRetire: nat, ledger: map<nat, Slot>, retired: map<nat, Record>, ch: Changes, ids: map<Key, nat>, u: Update, added: map<nat, Record>)
    requires RoleInv(ledger, index, retired) && Committable(index, nextRetire, ledger, ch, ids)
    requires forall r :: r in retired ==> r <= nextRetire
    requires u.entries == Added(ch) && u.removals == Removed(index, ch)
    requires forall k :: k in ids ==> ids[k] in added && added[ids[k]].entry == index[k]
    requires forall r :: r in added ==> added[r].key in ids && ids[added[r].key] == r
    ensures SlotRoles(Relabel(ledger, ch, ids), Apply(index, u), retired + added)
  {
    hide Relabel, Apply;
    var ledger' := Relabel(ledger, ch, ids);
    forall i | i in ledger'
      ensures ledger'[i].role.Published? ==> ledger'[i].role.key in Apply(index, u) && Apply(index, u)[ledger'[i].role.key] == ledger'[i].entry
      ensures ledger'[i].role.Retired? ==> ledger'[i].role.retireId in retired + added && (retired + added)[ledger'[i].role.retireId].entry == ledger'[i].entry
    {
      RelabelDomain(ledger, ch, ids, i);
      assert ledger[i].role.Retired? ==> ledger[i].role.retireId !in added;
      if ledger[i].role.Published? && ledger[i].role.key in ch {
        RetiredSlot(index, ledger, retired, ch, ids, added, i);
      } else {
        PublishedSlot(index, ledger, retired, ch, ids, u, i);
        RelabelAt(ledger, ch, ids, i);
      }
    }
  }

  lemma RetiredSlot(index: Files, ledger: map<nat, Slot>, retired: map<nat, Record>, ch: Changes, ids: map<Key, nat>, added: map<nat, Record>, i: nat)
    requires SlotRoles(ledger, index, retired) && i in Relabel(ledger, ch, ids) && i in ledger
    requires ledger[i].role.Published? && ledger[i].role.key in ch
    requires forall k :: k in ids ==> k in index && ids[k] in added && added[ids[k]].entry == index[k]
    ensures var slot := Relabel(ledger, ch, ids)[i]; slot.role.Retired? && slot.role.retireId in added && added[slot.role.retireId].entry == slot.entry
  {
    RelabelAt(ledger, ch, ids, i);
    hide Relabel;
  }

  lemma PublishedSlot(index: Files, ledger: map<nat, Slot>, retired: map<nat, Record>, ch: Changes, ids: map<Key, nat>, u: Update, i: nat)
    requires SlotRoles(ledger, index, retired) && i in Relabel(ledger, ch, ids) && i in ledger
    requires !(ledger[i].role.Published? && ledger[i].role.key in ch)
    requires u.entries == Added(ch) && u.removals == Removed(index, ch)
    ensures var slot := Relabel(ledger, ch, ids)[i];
      slot.role.Published? ==> slot.role.key in Apply(index, u) && Apply(index, u)[slot.role.key] == slot.entry
    ensures Relabel(ledger, ch, ids)[i].role.Retired? ==> Relabel(ledger, ch, ids)[i] == ledger[i]
  {
    RelabelAt(ledger, ch, ids, i);
    hide Relabel;
  }

  lemma RelabelDomain(ledger: map<nat, Slot>, ch: Changes, ids: map<Key, nat>, i: nat)
    requires i in Relabel(ledger, ch, ids)
    ensures i in ledger
  {
  }

  lemma CommitRecords(s: State, ch: Changes, ids: map<Key, nat>, u: Update, hist': seq<Files>)
    requires |s.hist| == |s.log| + 1 && s.hist[|s.log|] == s.index
    requires RecordInv(s.retired, s.nextRetire, s.log, s.hist)
    requires Committable(s.index, s.nextRetire, s.ledger, ch, ids)
    requires u == UpdateOf(s, ch, ids) && |hist'| == |s.hist| + 1 && hist'[..|s.hist|] == s.hist
    ensures RecordInv(s.retired + NewRecords(s.index, ids, u.id), s.nextRetire + |ids|, s.log + [u], hist')
  {
    assert forall n :: 0 <= n < |s.hist| ==> hist'[n] == s.hist[n];
    RecordsOf(s.index, ids, u.id);
    hide NewRecords, LoggedRecords, RecordedLog, CompleteLog;
    LogOfRecords(s, ids, u, NewRecords(s.index, ids, u.id));
    RecordsOfLog(s, ids, u, hist', NewRecords(s.index, ids, u.id));
    RetiresAll(s, ch, ids, u, hist');
  }

  lemma LogOfRecords(s: State, ids: map<Key, nat>, u: Update, added: map<nat, Record>)
    requires |s.hist| == |s.log| + 1 && RecordInv(s.retired, s.nextRetire, s.log, s.hist)
    requires u.retired == ids && u.id == |s.log| + 1
    requires forall r :: r in added ==> added[r].key in ids && ids[added[r].key] == r && added[r].updateId == u.id
    ensures LoggedRecords(s.retired + added, s.log + [u])
  {
    var retired' := s.retired + added;
    var log' := s.log + [u];
    forall r | r in retired' ensures LoggedRecord(retired'[r], r, log') {
      if r in added {
        assert log'[|s.log|] == u;
      } else {
        assert LoggedRecord(s.retired[r], r, s.log);
        assert log'[s.retired[r].updateId - 1] == s.log[s.retired[r].updateId - 1];
      }
    }
  }

  lemma RecordsOfLog(s: State, ids: map<Key, nat>, u: Update, hist': seq<Files>, added: map<nat, Record>)
    requires |s.hist| == |s.log| + 1 && s.hist[|s.log|] == s.index
    requires RecordInv(s.retired, s.nextRetire, s.log, s.hist)
    requires |hist'| == |s.hist| + 1 && forall n :: 0 <= n < |s.hist| ==> hist'[n] == s.hist[n]
    requires u.retired == ids && u.id == |s.log| + 1
    requires forall k :: k in ids ==> k in s.index && s.nextRetire < ids[k] <= s.nextRetire + |ids|
    requires forall k :: k in ids ==> ids[k] in added && added[ids[k]] == Record(k, s.index[k], u.id)
    requires forall r :: r in added ==> r > s.nextRetire
    ensures RecordedLog(s.retired + added, s.nextRetire + |ids|, s.log + [u], hist')
  {
    var retired' := s.retired + added;
    var log' := s.log + [u];
    forall n, k | 0 <= n < |log'| && k in log'[n].retired
      ensures k in hist'[n] && log'[n].retired[k] <= s.nextRetire + |ids|
      ensures log'[n].retired[k] in retired' ==> retired'[log'[n].retired[k]] == Record(k, hist'[n][k], n + 1)
    {
      if n < |s.log| {
        assert log'[n] == s.log[n] && hist'[n] == s.hist[n];
      } else {
        assert log'[n] == u && hist'[n] == s.index;
      }
    }
  }

  lemma RetiresAll(s: State, ch: Changes, ids: map<Key, nat>, u: Update, hist': seq<Files>)
    requires |s.hist| == |s.log| + 1 && s.hist[|s.log|] == s.index
    requires CompleteLog(s.log, s.hist)
    requires |hist'| == |s.hist| + 1 && forall n :: 0 <= n < |s.hist| ==> hist'[n] == s.hist[n]
    requires ids.Keys == Replaced(s.index, ch) && u.retired == ids && u.entries == Added(ch) && u.removals == Removed(s.index, ch)
    ensures CompleteLog(s.log + [u], hist')
  {
    var log' := s.log + [u];
    forall n | 0 <= n < |log'| ensures RetiresReplaced(hist'[n], log'[n]) {
      if n < |s.log| {
        assert log'[n] == s.log[n] && hist'[n] == s.hist[n];
      } else {
        assert log'[n] == u && hist'[n] == s.index;
      }
    }
  }

  lemma KnownRecords(s: State)
    requires |s.hist| == |s.log| + 1 && RecordInv(s.retired, s.nextRetire, s.log, s.hist)
    ensures forall r :: r in s.retired ==> r <= s.nextRetire && 1 <= s.retired[r].updateId <= |s.log|
  {
  }

  lemma CommitAcks(acks: map<nat, Pending>, peers: map<nat, Peer>, retired: map<nat, Record>, count: nat, added: map<nat, Record>, u: Update)
    requires AckInv(acks, peers, retired, count)
    requires retired.Keys !! added.Keys
    requires forall l :: l in peers ==> peers[l].acked <= count
    requires forall r :: r in retired ==> retired[r].updateId <= count
    requires forall r :: r in added ==> added[r].updateId == count + 1
    ensures AckInv(TrackedAcks(acks, peers.Keys, count + 1, added.Keys), Post(peers, u), retired + added, count + 1)
  {
    hide AckRecords, AckLinks, RecordAcks;
    CommitAckRecords(acks, peers, retired, count, added, u);
    CommitAckLinks(acks, peers, retired, count, added, u);
    CommitRecordAcks(acks, peers, retired, count, added, u);
  }

  lemma CommitAckRecords(acks: map<nat, Pending>, peers: map<nat, Peer>, retired: map<nat, Record>, count: nat, added: map<nat, Record>, u: Update)
    requires AckRecords(acks, peers.Keys, retired, count) && retired.Keys !! added.Keys
    requires forall r :: r in added ==> added[r].updateId == count + 1
    ensures AckRecords(TrackedAcks(acks, peers.Keys, count + 1, added.Keys), Post(peers, u).Keys, retired + added, count + 1)
  {
  }

  lemma CommitAckLinks(acks: map<nat, Pending>, peers: map<nat, Peer>, retired: map<nat, Record>, count: nat, added: map<nat, Record>, u: Update)
    requires AckLinks(acks, peers) && forall l :: l in peers ==> peers[l].acked <= count
    ensures AckLinks(TrackedAcks(acks, peers.Keys, count + 1, added.Keys), Post(peers, u))
  {
  }

  lemma CommitRecordAcks(acks: map<nat, Pending>, peers: map<nat, Peer>, retired: map<nat, Record>, count: nat, added: map<nat, Record>, u: Update)
    requires AckRecords(acks, peers.Keys, retired, count) && RecordAcks(acks, peers, retired) && retired.Keys !! added.Keys
    requires forall r :: r in retired ==> retired[r].updateId <= count
    requires forall r :: r in added ==> added[r].updateId == count + 1
    ensures RecordAcks(TrackedAcks(acks, peers.Keys, count + 1, added.Keys), Post(peers, u), retired + added)
  {
    var all := retired + added;
    var acks' := TrackedAcks(acks, peers.Keys, count + 1, added.Keys);
    forall r | r in all
      ensures all[r].updateId in acks' ==> r in acks'[all[r].updateId].retired
      ensures all[r].updateId !in acks' ==> forall l :: l in Post(peers, u) ==> all[r].updateId <= Post(peers, u)[l].acked
    {
      if r in added {
        assert all[r] == added[r];
      } else {
        assert all[r] == retired[r];
      }
    }
  }

  lemma CommitHeld(s: State, u: Update, added: map<nat, Record>)
    requires HeldForAcks(s.log, s.retired, s.peers)
    requires forall k :: k in u.retired ==> u.retired[k] in added
    ensures HeldForAcks(s.log + [u], s.retired + added, Post(s.peers, u))
  {
  }

  lemma CommitPeer(p: Peer, log: seq<Update>, hist: seq<Files>, u: Update, index: Files)
    requires |hist| == |log| + 1 && PeerInv(p, log, hist)
    ensures PeerInv(Queue(p, Deliver(u)), log + [u], hist + [index])
  {
    InboxAppendUpdate(p.inbox, p.applied, log, u);
    hide InboxInv, OutboxInv;
  }

  /** A fresh retireId means nothing to any worker yet. */
  lemma CommitHold(l: nat, p: Peer, u: Update, retired: map<nat, Record>, holders: map<nat, set<Holder>>, added: map<nat, Record>, held: map<nat, set<Holder>>)
    requires holders.Keys == retired.Keys && held.Keys == added.Keys && HoldInv(l, p, retired, holders)
    requires retired.Keys !! added.Keys
    requires forall r :: r in held ==> held[r] <= {Main}
    ensures HoldInv(l, Queue(p, Deliver(u)), retired + added, holders + held)
  {
    var all := retired + added;
    forall r | r in added ensures !Retaining(p.outbox, r) && !Releasing(p.outbox, r) && !BoundTo(p.pins, added[r].entry, r) {
      assert r !in retired;
    }
    hide Retaining, Releasing;
    assert forall r :: r in held ==> Worker(l) !in held[r];
  }

  lemma CommitMain(files: Files, pins: Pins, u: Update, retired: map<nat, Record>, holders: map<nat, set<Holder>>, added: map<nat, Record>, held: map<nat, set<Holder>>)
    requires holders.Keys == retired.Keys && held.Keys == added.Keys && retired.Keys !! added.Keys
    requires MainPinInv(pins, retired, holders)
    requires DistinctVersions(files, u)
    requires forall k :: k in u.retired ==> k in files && u.retired[k] in added && added[u.retired[k]].entry == files[k]
    requires var all := retired + added; forall q, r :: q in all && r in all && all[q].entry == all[r].entry ==> q == r
    requires forall r :: r in held ==> held[r] == if r in RetainedIds(files, pins, u) then {Main} else {}
    ensures MainPinInv(Bind(files, pins, u), retired + added, holders + held)
  {
    var all := retired + added;
    var holders' := holders + held;
    forall r | r in all
      ensures Main in holders'[r] <==> BoundTo(Bind(files, pins, u), all[r].entry, r)
    {
      BindRecord(files, pins, u, all, r);
      if r in added {
        assert !BoundTo(pins, all[r].entry, r);
      } else {
        assert r !in RetainedIds(files, pins, u);
      }
    }
    forall e | e in Bind(files, pins, u).bound
      ensures var r := Bind(files, pins, u).bound[e]; r in all && all[r].entry == e
    {
      BindAt(files, pins, u, e);
      if Rebound(files, pins, u, e) {
        var k :| k in InUse(files, pins, u) && files[k] == e;
        assert u.retired[k] in added;
      }
    }
    hide Bind, InUse, RetainedIds;
  }

  /** A version an earlier index held is still tracked after the commit. */
  lemma CommitTracked(e: Entry, n: nat, index: Files, ledger: map<nat, Slot>, retired: map<nat, Record>, ch: Changes, ids: map<Key, nat>, added: map<nat, Record>, u: nat)
    requires Tracked(e, n, ledger, retired) && SlotRoles(ledger, index, retired)
    requires e.Occupies() && n < u
    requires ids.Keys == Replaced(index, ch)
    requires forall k :: k in ids ==> ids[k] in added && added[ids[k]].updateId == u
    requires retired.Keys !! added.Keys
    ensures Tracked(e, n, Relabel(ledger, ch, ids), retired + added)
  {
    RelabelAt(ledger, ch, ids, e.id);
    hide Relabel;
  }

  lemma CommitVisible(s: State, ch: Changes, ids: map<Key, nat>, u: Update, added: map<nat, Record>)
    requires |s.hist| == |s.log| + 1 && u.id == |s.log| + 1
    requires VisibleInv(s.peers, s.hist, s.ledger, s.retired)
    requires SlotRoles(s.ledger, s.index, s.retired)
    requires ids.Keys == Replaced(s.index, ch)
    requires forall k :: k in ids ==> ids[k] in added && added[ids[k]].updateId == u.id
    requires s.retired.Keys !! added.Keys
    requires IndexRoles(Relabel(s.ledger, ch, ids), Apply(s.index, u))
    ensures VisibleInv(Post(s.peers, u), s.hist + [Apply(s.index, u)], Relabel(s.ledger, ch, ids), s.retired + added)
  {
    hide Relabel, SlotRoles, Apply;
    var hist': seq<Files> := s.hist + [Apply(s.index, u)];
    forall l, n, k: Key | l in s.peers && s.peers[l].applied <= n < |hist'| && k in hist'[n] && hist'[n][k].Occupies()
      ensures Tracked(hist'[n][k], n, Relabel(s.ledger, ch, ids), s.retired + added)
    {
      if n < |s.hist| {
        assert hist'[n] == s.hist[n];
        assert Tracked(s.hist[n][k], n, s.ledger, s.retired) by { hide Tracked; }
        CommitTracked(s.hist[n][k], n, s.index, s.ledger, s.retired, ch, ids, added, u.id);
      } else {
        assert hist'[n] == Apply(s.index, u);
      }
    }
    hide Tracked;
  }

  lemma CommitDistinct(index: Files, ledger: map<nat, Slot>, nextRetire: nat, ch: Changes, ids: map<Key, nat>, u: Update)
    requires IndexRoles(ledger, index) && Committable(index, nextRetire, ledger, ch, ids)
    requires u.entries == Added(ch) && u.removals == Removed(index, ch) && u.retired == ids
    ensures DistinctVersions(index, u) && RetiresReplaced(index, u)
  {
  }

  lemma FlushKeepsInv(s: State, ch: Changes, ids: map<Key, nat>)
    requires Numbered(s, ch, ids) && Publishable(s, ch) && Inv(s)
    ensures Inv(Commit(s, ch, ids))
  {
    if !Vacuous(s.index, ch) {
      FlushCore(s, ch, ids);
    }
  }

  lemma FlushCore(s: State, ch: Changes, ids: map<Key, nat>)
    requires Numbered(s, ch, ids) && Publishable(s, ch) && Inv(s) && !Vacuous(s.index, ch)
    ensures Inv(Commit(s, ch, ids))
  {
    hide *;
    ReplacedPublished(s, ch, ids);
    FlushOwnership(s, ch, ids);
    FlushThreads(s, ch, ids);
    CreditsKnown(s);
    Assemble(s, ch, ids);
  }

  lemma CreditsKnown(s: State)
    requires Inv(s)
    ensures CreditInv(s.calls, |s.log|)
  {
    hide LogInv, LedgerInv, RoleInv, RecordInv, AckInv, HeldForAcks, HoldersInv, VisibleInv, MainPinInv, PinnedInv, HoldInv, PeerInv;
  }

  /** The new index, its history and the ownership behind it. */
  ghost predicate OwnershipKept(s: State, ch: Changes, ids: map<Key, nat>)
    requires Numbered(s, ch, ids) && ids.Keys <= s.index.Keys && |s.hist| == |s.log| + 1
  {
    var u := UpdateOf(s, ch, ids);
    var retired' := s.retired + NewRecords(s.index, ids, u.id);
    var hist' := s.hist + [Apply(s.index, u)];
    && LogInv(s.log + [u], hist', Apply(s.index, u), Apply(s.files, u))
    && LedgerInv(Relabel(s.ledger, ch, ids), s.mem, s.minted)
    && RoleInv(Relabel(s.ledger, ch, ids), Apply(s.index, u), retired')
    && RecordInv(retired', s.nextRetire + |ids|, s.log + [u], hist')
    && VisibleInv(Post(s.peers, u), hist', Relabel(s.ledger, ch, ids), retired')
  }

  /** What every thread and every acknowledgement sees of the commit. */
  ghost predicate ThreadsKept(s: State, ch: Changes, ids: map<Key, nat>)
    requires Numbered(s, ch, ids) && ids.Keys <= s.index.Keys && |s.hist| == |s.log| + 1
  {
    var u := UpdateOf(s, ch, ids);
    var added := NewRecords(s.index, ids, u.id);
    var held := HeldByMain(ids, RetainedIds(s.files, s.pins, u));
    var peers' := Post(s.peers, u);
    && (s.holders + held).Keys == (s.retired + added).Keys
    && AckInv(TrackedAcks(s.acks, s.peers.Keys, u.id, added.Keys), peers', s.retired + added, |s.log| + 1)
    && HeldForAcks(s.log + [u], s.retired + added, peers')
    && (forall l :: l in peers' ==> l <= s.nextLink && PeerInv(peers'[l], s.log + [u], s.hist + [Apply(s.index, u)]))
    && (forall l :: l in peers' ==> PinnedInv(peers'[l].files, peers'[l].pins))
    && (forall l :: l in peers' ==> HoldInv(l, peers'[l], s.retired + added, s.holders + held))
    && PinnedInv(Apply(s.files, u), Bind(s.files, s.pins, u))
    && MainPinInv(Bind(s.files, s.pins, u), s.retired + added, s.holders + held)
    && HoldersInv(s.holders + held, peers')
  }

  lemma CommittedFields(s: State, u: Update, added: map<nat, Record>, held: map<nat, set<Holder>>, ledger: map<nat, Slot>)
    ensures var t := Committed(s, u, added, held, ledger);
      && t.index == Apply(s.index, u) && t.files == Apply(s.files, u) && t.pins == Bind(s.files, s.pins, u)
      && t.retired == s.retired + added && t.holders == s.holders + held
      && t.acks == TrackedAcks(s.acks, s.peers.Keys, u.id, added.Keys)
      && t.nextRetire == s.nextRetire + |u.retired| && t.nextLink == s.nextLink && t.minted == s.minted
      && t.peers == Post(s.peers, u) && t.ledger == ledger && t.mem == s.mem
      && t.log == s.log + [u] && t.hist == s.hist + [Apply(s.index, u)] && t.calls == s.calls
  {
    hide Apply, Bind, TrackedAcks, Post;
  }

  lemma MoreCredit(calls: Calls, n: nat)
    requires CreditInv(calls, n)
    ensures CreditInv(calls, n + 1)
  {
  }

  lemma Assemble(s: State, ch: Changes, ids: map<Key, nat>)
    requires |s.hist| == |s.log| + 1 && Numbered(s, ch, ids) && !Vacuous(s.index, ch) && ids.Keys <= s.index.Keys
    requires OwnershipKept(s, ch, ids) && ThreadsKept(s, ch, ids) && CreditInv(s.calls, |s.log|)
    ensures Inv(Commit(s, ch, ids))
  {
    hide Inv, OwnershipKept, ThreadsKept, CreditInv, Relabel, Bind, Apply, RetainedIds, NewRecords, HeldByMain, Post, TrackedAcks, Injective,
      Committed, Vacuous, Numbered, Commit, UpdateOf;
    var u := UpdateOf(s, ch, ids);
    CommitIs(s, ch, ids);
    CommittedFields(s, u, NewRecords(s.index, ids, u.id), HeldByMain(ids, RetainedIds(s.files, s.pins, u)), Relabel(s.ledger, ch, ids));
    MoreCredit(s.calls, |s.log|);
    assert u.retired == ids by {
      RetiredIs(s, ch, ids);
    }
    Assembled(s, ch, ids, Commit(s, ch, ids));
  }

  lemma RetiredIs(s: State, ch: Changes, ids: map<Key, nat>)
    ensures UpdateOf(s, ch, ids).retired == ids && UpdateOf(s, ch, ids).id == |s.log| + 1
  {
  }

  lemma Assembled(s: State, ch: Changes, ids: map<Key, nat>, t: State)
    requires |s.hist| == |s.log| + 1 && Numbered(s, ch, ids) && ids.Keys <= s.index.Keys && Injective(ids)
    requires OwnershipKept(s, ch, ids) && ThreadsKept(s, ch, ids) && CreditInv(s.calls, |s.log| + 1)
    requires var u := UpdateOf(s, ch, ids);
      && t.index == Apply(s.index, u) && t.files == Apply(s.files, u) && t.pins == Bind(s.files, s.pins, u)
      && t.retired == s.retired + NewRecords(s.index, ids, u.id) && t.holders == s.holders + HeldByMain(ids, RetainedIds(s.files, s.pins, u))
      && t.acks == TrackedAcks(s.acks, s.peers.Keys, u.id, NewRecords(s.index, ids, u.id).Keys)
      && t.nextRetire == s.nextRetire + |ids| && t.nextLink == s.nextLink && t.minted == s.minted
      && t.peers == Post(s.peers, u) && t.ledger == Relabel(s.ledger, ch, ids) && t.mem == s.mem
      && t.log == s.log + [u] && t.hist == s.hist + [Apply(s.index, u)] && t.calls == s.calls
    ensures Inv(t)
  {
    hide LogInv, LedgerInv, RoleInv, RecordInv, AckInv, HeldForAcks, HoldersInv, VisibleInv, MainPinInv, PinnedInv, HoldInv, PeerInv, CreditInv,
      Relabel, Bind, Apply, RetainedIds, NewRecords, HeldByMain, Post, Added, Removed, Replaced, TrackedAcks, Injective, Numbered, UpdateOf;
  }

  lemma CommitIs(s: State, ch: Changes, ids: map<Key, nat>)
    requires Numbered(s, ch, ids) && !Vacuous(s.index, ch)
    ensures ids.Keys <= s.index.Keys && Injective(ids)
    ensures var u := UpdateOf(s, ch, ids);
      Commit(s, ch, ids) == Committed(s, u, NewRecords(s.index, ids, u.id), HeldByMain(ids, RetainedIds(s.files, s.pins, u)), Relabel(s.ledger, ch, ids))
  {
    hide Committed, Relabel, NewRecords, HeldByMain, RetainedIds, Injective, Vacuous;
  }

  lemma FlushOwnership(s: State, ch: Changes, ids: map<Key, nat>)
    requires Numbered(s, ch, ids) && Publishable(s, ch) && Inv(s) && ids.Keys <= s.index.Keys
    ensures OwnershipKept(s, ch, ids)
  {
    hide LogInv, LedgerInv, RoleInv, RecordInv, AckInv, HeldForAcks, HoldersInv, VisibleInv, MainPinInv, PinnedInv, HoldInv, PeerInv,
      Relabel, Bind, Apply, RetainedIds, NewRecords, HeldByMain, Post, Added, Removed, Replaced, TrackedAcks, Injective, Publishable, Committable,
      IndexRoles, RecordRoles, SlotRoles;
    var u := UpdateOf(s, ch, ids);
    var added := NewRecords(s.index, ids, u.id);
    StateFacts(s);
    FlushFacts(s, ch, ids, u, added, HeldByMain(ids, RetainedIds(s.files, s.pins, u)));
    CommitAdvancesLog(s.log, s.hist, s.index, s.files, u);
    CommitLedger(s.ledger, s.mem, s.minted, ch, ids);
    CommitRoles(s.index, s.nextRetire, s.ledger, s.retired, ch, ids, u);
    CommitRecords(s, ch, ids, u, s.hist + [Apply(s.index, u)]);
    RolesOfIndex(s.index, s.nextRetire, s.ledger, s.retired, ch, ids, u);
    CommitVisible(s, ch, ids, u, added);
  }

  lemma FlushThreads(s: State, ch: Changes, ids: map<Key, nat>)
    requires Numbered(s, ch, ids) && Publishable(s, ch) && Inv(s) && ids.Keys <= s.index.Keys
    ensures ThreadsKept(s, ch, ids)
  {
    hide LogInv, LedgerInv, RoleInv, RecordInv, AckInv, HeldForAcks, HoldersInv, VisibleInv, MainPinInv, PinnedInv, HoldInv, PeerInv,
      Relabel, Bind, Apply, RetainedIds, NewRecords, HeldByMain, Post, Added, Removed, Replaced, TrackedAcks, Injective, Publishable, Committable,
      IndexRoles, RecordRoles, SlotRoles;
    var u := UpdateOf(s, ch, ids);
    var added := NewRecords(s.index, ids, u.id);
    var held := HeldByMain(ids, RetainedIds(s.files, s.pins, u));
    StateFacts(s);
    FlushFacts(s, ch, ids, u, added, held);
    CommitAcks(s.acks, s.peers, s.retired, |s.log|, added, u);
    CommitHeld(s, u, added);
    CommitPeers(s, u, added, held);
    RolesOfRecords(s.index, s.nextRetire, s.ledger, s.retired, ch, ids, u, added);
    CommitThisThread(s, ch, ids, u, added, held);
    CommitHolders(s.holders, held, s.peers, u);
  }

  lemma ReplacedPublished(s: State, ch: Changes, ids: map<Key, nat>)
    requires Inv(s) && Numbered(s, ch, ids)
    ensures ids.Keys <= s.index.Keys && |s.hist| == |s.log| + 1
  {
    hide LogInv, LedgerInv, RoleInv, RecordInv, AckInv, HeldForAcks, HoldersInv, VisibleInv, MainPinInv, PinnedInv, HoldInv, PeerInv, Injective;
  }

  lemma StateFacts(s: State)
    requires Inv(s)
    ensures s.files == s.index && s.hist[|s.log|] == s.index
    ensures IndexRoles(s.ledger, s.index) && RecordRoles(s.ledger, s.retired) && SlotRoles(s.ledger, s.index, s.retired)
    ensures forall r :: r in s.retired ==> r <= s.nextRetire && s.retired[r].updateId <= |s.log|
    ensures forall i :: i in s.ledger ==> s.ledger[i].entry.id == i
    ensures forall l :: l in s.peers ==> s.peers[l].acked <= |s.log|
  {
    hide AckInv, HeldForAcks, HoldersInv, VisibleInv, MainPinInv, PinnedInv, HoldInv, RecordInv, InboxInv, OutboxInv, Ordered,
      Intact, Disjoint, Covers, IndexRoles, RecordRoles, SlotRoles;
    KnownRecords(s);
  }

  /** The preconditions of the lemmas above, for one commit. */
  lemma FlushFacts(s: State, ch: Changes, ids: map<Key, nat>, u: Update, added: map<nat, Record>, held: map<nat, set<Holder>>)
    requires Numbered(s, ch, ids) && Publishable(s, ch)
    requires u == UpdateOf(s, ch, ids) && ids.Keys <= s.index.Keys
    requires u.id == |s.log| + 1
    requires added == NewRecords(s.index, ids, u.id) && held == HeldByMain(ids, RetainedIds(s.files, s.pins, u))
    requires forall r :: r in s.retired ==> r <= s.nextRetire
    ensures Committable(s.index, s.nextRetire, s.ledger, ch, ids)
    ensures forall k :: k in ids ==> ids[k] in added && added[ids[k]] == Record(k, s.index[k], u.id)
    ensures forall r :: r in added ==> added[r].key in ids && ids[added[r].key] == r && added[r].updateId == u.id
    ensures s.retired.Keys !! added.Keys && held.Keys == added.Keys
    ensures forall r :: r in held ==> held[r] == if r in RetainedIds(s.files, s.pins, u) then {Main} else {}
  {
    hide NewRecords, HeldByMain, RetainedIds, Added, Removed, Replaced, UpdateOf, Injective;
    RecordsOf(s.index, ids, u.id);
    HeldOf(ids, RetainedIds(s.files, s.pins, u));
    assert forall r :: r in added ==> r > s.nextRetire;
  }

  lemma HeldOf(ids: map<Key, nat>, kept: set<nat>)
    requires Injective(ids)
    ensures forall k :: k in ids ==> ids[k] in HeldByMain(ids, kept)
    ensures forall r :: r in HeldByMain(ids, kept) ==> r in ids.Values && HeldByMain(ids, kept)[r] == if r in kept then {Main} else {}
  {
  }

  lemma CommitPeers(s: State, u: Update, added: map<nat, Record>, held: map<nat, set<Holder>>)
    requires |s.hist| == |s.log| + 1 && s.holders.Keys == s.retired.Keys
    requires forall l :: l in s.peers ==> l <= s.nextLink && PeerInv(s.peers[l], s.log, s.hist)
    requires forall l :: l in s.peers ==> PinnedInv(s.peers[l].files, s.peers[l].pins)
    requires forall l :: l in s.peers ==> HoldInv(l, s.peers[l], s.retired, s.holders)
    requires s.retired.Keys !! added.Keys && held.Keys == added.Keys
    requires forall r :: r in held ==> held[r] <= {Main}
    ensures forall l :: l in Post(s.peers, u) ==>
      && l <= s.nextLink
      && PeerInv(Post(s.peers, u)[l], s.log + [u], s.hist + [Apply(s.index, u)])
      && PinnedInv(Post(s.peers, u)[l].files, Post(s.peers, u)[l].pins)
      && HoldInv(l, Post(s.peers, u)[l], s.retired + added, s.holders + held)
  {
    hide LogInv, LedgerInv, RoleInv, RecordInv, AckInv, HeldForAcks, HoldersInv, VisibleInv, MainPinInv, PinnedInv, HoldInv, PeerInv, Apply;
    forall l | l in s.peers
      ensures PeerInv(Post(s.peers, u)[l], s.log + [u], s.hist + [Apply(s.index, u)])
      ensures HoldInv(l, Post(s.peers, u)[l], s.retired + added, s.holders + held)
    {
      CommitPeer(s.peers[l], s.log, s.hist, u, Apply(s.index, u));
      CommitHold(l, s.peers[l], u, s.retired, s.holders, added, held);
    }
  }

  lemma CommitThisThread(s: State, ch: Changes, ids: map<Key, nat>, u: Update, added: map<nat, Record>, held: map<nat, set<Holder>>)
    requires IndexRoles(s.ledger, s.index) && Committable(s.index, s.nextRetire, s.ledger, ch, ids) && u == UpdateOf(s, ch, ids) && s.files == s.index
    requires s.holders.Keys == s.retired.Keys && PinnedInv(s.files, s.pins) && MainPinInv(s.pins, s.retired, s.holders)
    requires s.retired.Keys !! added.Keys && held.Keys == added.Keys
    requires forall k :: k in ids ==> ids[k] in added && k in s.index && added[ids[k]] == Record(k, s.index[k], u.id)
    requires forall r :: r in held ==> held[r] == if r in RetainedIds(s.files, s.pins, u) then {Main} else {}
    requires RecordRoles(Relabel(s.ledger, ch, ids), s.retired + added)
    ensures PinnedInv(Apply(s.files, u), Bind(s.files, s.pins, u))
    ensures MainPinInv(Bind(s.files, s.pins, u), s.retired + added, s.holders + held)
  {
    hide MainPinInv, PinnedInv, Relabel, Bind, Apply, RetainedIds, RecordRoles, IndexRoles, Committable, DistinctVersions;
    DistinctRecords(Relabel(s.ledger, ch, ids), s.retired + added);
    CommitDistinct(s.index, s.ledger, s.nextRetire, ch, ids, u);
    CommitMain(s.files, s.pins, u, s.retired, s.holders, added, held);
    BindKeepsPinned(s.files, s.pins, u);
  }

  lemma DistinctRecords(ledger: map<nat, Slot>, retired: map<nat, Record>)
    requires RecordRoles(ledger, retired)
    ensures forall q, r :: q in retired && r in retired && retired[q].entry == retired[r].entry ==> q == r
  {
  }

  lemma CommitHolders(holders: map<nat, set<Holder>>, held: map<nat, set<Holder>>, peers: map<nat, Peer>, u: Update)
    requires HoldersInv(holders, peers)
    requires forall r :: r in held ==> held[r] <= {Main}
    ensures HoldersInv(holders + held, Post(peers, u))
  {
  }
}
