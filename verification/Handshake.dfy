// The delivery handshake between owner and transport.
module Handshake {
  import opened Wrappers
  import opened Meetings
  import opened Storage
  import opened Events
  import opened Expiry
  import opened Reconcile
  import opened ReducerNotifications
  import opened PollHealth
  import opened Reducer
  import opened Pointwise
  import opened Closure
  import opened Control
  import opened Owner
  import opened System
  import opened WriteAhead

  // ---- acknowledgements and compensation -------------------------------------

  // The ids refused so far, in order.
  function RefusedIds(acks: seq<Ack>): seq<NotificationId> {
    if acks == [] then []
    else
      var last := acks[|acks| - 1];
      RefusedIds(acks[..|acks| - 1]) + (if last.persisted then [] else [last.id])
  }

  // The acknowledgement slot is full only while the transport waits for it, a
  // waiting transport has its acknowledgement while the loop runs, a refusal
  // ends the run, and what was refused is what the transport has closed or is
  // about to close.
  ghost predicate AckInv(s: System) {
    && (s.ackSlot.Some? ==> s.transport.Awaiting?)
    && (s.transport.Awaiting? && s.owner.running ==> s.ackSlot.Some?)
    && (s.transport == Halted ==> !s.owner.running)
    && (s.owner.running ==> RefusedIds(s.acks) == [])
    && |RefusedIds(s.acks)| <= 1
    && RefusedIds(s.acks)
       == s.compensated + (if s.ackSlot == Some(false) && s.transport.Awaiting? then [s.transport.id] else [])
  }

  lemma RefusedAppend(acks: seq<Ack>, ack: Ack)
    ensures RefusedIds(acks + [ack]) == RefusedIds(acks) + (if ack.persisted then [] else [ack.id])
  {
    assert (acks + [ack])[..|acks|] == acks;
  }

  // Handing a notice over, whatever its commit.
  lemma HandedNotice(s: System, a: Action, n: Notification, at: Time, commit: Commit, config: Config)
    requires AckInv(s) && a.NoticeArrives? && s.owner.running && s.transport == Holding(n)
    ensures AckInv(HandedWith(s, a, Event(at, Notice(n)), commit, config))
  {
    var e := Event(at, Notice(n));
    if AckOf(commit, e).Some? {
      RefusedAppend(s.acks, Ack(n.id, commit.Committed?));
    }
  }

  lemma HandedOther(s: System, a: Action, e: Event, commit: Commit, config: Config)
    requires AckInv(s) && s.owner.running && HandsOver(a) && !a.NoticeArrives? && !e.payload.Notice?
    ensures AckInv(HandedWith(s, a, e, commit, config))
    ensures HandedWith(s, a, e, commit, config).acks == s.acks
  {
    assert AckOf(commit, e) == None;
  }

  lemma AckStep(s: System, a: Action, config: Config)
    requires AckInv(s) && Enabled(s, a, config)
    ensures AckInv(After(s, a, config))
  {
    if HandsOver(a) {
      var e := HandedEvent(s, a).value;
      var commit := CommitOf(s.owner, e, SaveOf(a), config.policy);
      if a.NoticeArrives? {
        HandedNotice(s, a, s.transport.notice, e.at, commit, config);
      } else {
        HandedOther(s, a, e, commit, config);
      }
    }
  }

  // A notice reaches the owner only while no acknowledgement is outstanding: the
  // acknowledgement slot is never full when the owner wants to use it, and no
  // signal overtakes a delivery the owner has not answered.
  lemma NoSignalBeforeTheAck(s: System, a: Action, config: Config)
    requires AckInv(s) && a.NoticeArrives? && Enabled(s, a, config)
    ensures s.ackSlot.None? && !s.transport.Awaiting?
  {
  }

  // Exactly one acknowledgement for a delivery the reducer accepts or ignores,
  // none for anything else. A refusal leaves memory and index alone and stops
  // the loop.
  lemma OneAckPerDelivery(s: System, a: Action, config: Config)
    requires AckInv(s) && a.NoticeArrives? && Enabled(s, a, config)
    ensures var next := After(s, a, config);
            var commit := CommitOf(s.owner, HandedEvent(s, a).value, SaveOf(a), config.policy);
            if s.transport.notice.Delivered? && !commit.Rejected? then
              && next.ackSlot.Some?
              && next.acks == s.acks + [Ack(s.transport.notice.id, next.ackSlot.value)]
              && next.transport == Awaiting(s.transport.notice.id)
              && (next.ackSlot.value <==> next.owner.running)
              && (!next.ackSlot.value ==>
                    next.owner.state == s.owner.state && next.owner.index == s.owner.index
                    && next.owner.published == s.owner.published && next.owner.control == s.owner.control)
            else next.acks == s.acks
  {
    var e := HandedEvent(s, a).value;
    AckedDelivery(s, a, s.transport.notice, e.at, CommitOf(s.owner, e, SaveOf(a), config.policy), config);
  }

  // No other action acknowledges anything.
  lemma NoOtherAck(s: System, a: Action, config: Config)
    requires AckInv(s) && !a.NoticeArrives? && Enabled(s, a, config)
    ensures After(s, a, config).acks == s.acks
  {
    if HandsOver(a) {
      var e := HandedEvent(s, a).value;
      HandedOther(s, a, e, CommitOf(s.owner, e, SaveOf(a), config.policy), config);
    }
  }

  lemma AckedDelivery(s: System, a: Action, n: Notification, at: Time, commit: Commit, config: Config)
    requires AckInv(s) && a.NoticeArrives? && s.owner.running && s.transport == Holding(n)
    ensures var next := HandedWith(s, a, Event(at, Notice(n)), commit, config);
            if n.Delivered? && !commit.Rejected? then
              && next.ackSlot.Some?
              && next.acks == s.acks + [Ack(n.id, next.ackSlot.value)]
              && next.transport == Awaiting(n.id)
              && (next.ackSlot.value <==> next.owner.running)
              && (!next.ackSlot.value ==>
                    next.owner.state == s.owner.state && next.owner.index == s.owner.index
                    && next.owner.published == s.owner.published && next.owner.control == s.owner.control)
            else next.acks == s.acks
  {
  }

  // A refused delivery is closed once: taking the refusal closes its id, and
  // after that nothing is outstanding.
  lemma RefusalIsCompensated(s: System, config: Config)
    requires AckInv(s) && s.ackSlot == Some(false)
    ensures Enabled(s, AckTaken, config)
    ensures var next := After(s, AckTaken, config);
            && s.compensated == []
            && next.compensated == RefusedIds(s.acks) == [s.transport.id]
            && next.transport == Halted && !next.owner.running
  {
  }

  // ---- what a positive acknowledgement means ------------------------------------

  // The delivery answers current work: a pending notification or warning.
  ghost predicate Answers(s: State, n: Notification)
    requires n.Delivered?
  {
    if n.account != "" then AnswersWarning(s, n)
    else n.key in s.occurrences && DeliveryMatches(s.occurrences[n.key], n.revision)
  }

  ghost predicate AnyStarted(s: State, at: Time) {
    exists k | k in s.occurrences :: s.occurrences[k].phase == NotifyPending && s.occurrences[k].meeting.start <= at
  }

  // The answered work as it stands after the delivery at time at.
  ghost predicate Recorded(next: State, n: Notification, at: Time)
    requires n.Delivered?
  {
    if n.account != "" then
      n.account !in next.pendingAuthWarnings && Lookup(next.authWarnings, n.account) == Some(at)
    else
      && n.key in next.occurrences
      && next.occurrences[n.key].phase == Notified
      && next.occurrences[n.key].notificationId == n.id
      && next.occurrences[n.key].notifiedAt == at
      && next.occurrences[n.key].notifyRevision == n.revision
  }

  // A delivery that names a pending notification, seen at its own key.
  lemma AnsweredNext(s: State, index: Index, e: Event, policy: Policy)
    requires e.payload.Notice? && e.payload.notification.Delivered? && e.payload.notification.account == ""
    requires Valid(s) && Answers(s, e.payload.notification)
    ensures var n := e.payload.notification;
            var next := NextOne(s, index, e, policy, n.key);
            && next.Some? && next.value.phase == Notified && next.value.notificationId == n.id
            && next.value.notifiedAt == e.at && next.value.notifyRevision == n.revision
            && s.occurrences[n.key].phase == NotifyPending
  {
  }

  lemma AnsweredOccurrence(s: State, index: Index, e: Event, policy: Policy)
    requires Valid(s) && IsNormal(s) && Reduce(s, index, e, policy).Ok?
    requires e.payload.Notice? && e.payload.notification.Delivered? && e.payload.notification.account == ""
    requires Answers(s, e.payload.notification)
    ensures Recorded(Reduce(s, index, e, policy).value.state, e.payload.notification, e.at)
    ensures Reduce(s, index, e, policy).value.state.occurrences != s.occurrences
  {
    AnsweredNext(s, index, e, policy);
    NormalNextAt(s, index, e, policy, e.payload.notification.key);
  }

  lemma AnsweredWarning(s: State, index: Index, e: Event, policy: Policy)
    requires Valid(s) && IsNormal(s) && Reduce(s, index, e, policy).Ok?
    requires e.payload.Notice? && e.payload.notification.Delivered? && e.payload.notification.account != ""
    requires AnswersWarning(s, e.payload.notification)
    ensures Recorded(Reduce(s, index, e, policy).value.state, e.payload.notification, e.at)
    ensures Reduce(s, index, e, policy).value.state.pendingAuthWarnings != s.pendingAuthWarnings
  {
    NormalizedIdempotent(s);
    var n := e.payload.notification;
    assert Transition(s, index, e, policy) == Ok(ApplyNotification(s, index, n, e.at, policy));
    assert n.account in s.pendingAuthWarnings;
  }

  lemma AnsweredIsRecorded(s: State, index: Index, e: Event, policy: Policy)
    requires Valid(s) && IsNormal(s) && Reduce(s, index, e, policy).Ok?
    requires e.payload.Notice? && e.payload.notification.Delivered? && Answers(s, e.payload.notification)
    ensures Recorded(Reduce(s, index, e, policy).value.state, e.payload.notification, e.at)
    ensures Reduce(s, index, e, policy).value.state != s
  {
    if e.payload.notification.account == "" {
      AnsweredOccurrence(s, index, e, policy);
    } else {
      AnsweredWarning(s, index, e, policy);
    }
  }

  lemma UnansweredChangesOnlyStarted(s: State, index: Index, e: Event, policy: Policy)
    requires Valid(s) && IsNormal(s) && Reduce(s, index, e, policy).Ok?
    requires e.payload.Notice? && e.payload.notification.Delivered? && !Answers(s, e.payload.notification)
    ensures Reduce(s, index, e, policy).value.state == s.(occurrences := ExpireAll(s.occurrences, e.at))
  {
    var n := e.payload.notification;
    NormalizedIdempotent(s);
    UnansweredIsIgnored(s, index, n, e.at, policy);
    assert Transition(s, index, e, policy) == Ok(ApplyNotification(s, index, n, e.at, policy));
  }

  lemma UnansweredIsIgnored(s: State, index: Index, n: Notification, at: Time, policy: Policy)
    requires n.Delivered? && !Answers(s, n)
    ensures ApplyNotification(s, index, n, at, policy) == s
  {
    forall k
      ensures Lookup(ApplyNotification(s, index, n, at, policy).occurrences, k) == Lookup(s.occurrences, k)
    {
      MovedNoticeAt(s, index, n, at, policy, k);
    }
    SameEntries(ApplyNotification(s, index, n, at, policy).occurrences, s.occurrences);
  }

  lemma ExpiryChangesIffStarted(s: State, at: Time)
    ensures ExpireAll(s.occurrences, at) != s.occurrences <==> AnyStarted(s, at)
  {
    var after := ExpireAll(s.occurrences, at);
    if AnyStarted(s, at) {
      var k :| k in s.occurrences && s.occurrences[k].phase == NotifyPending && s.occurrences[k].meeting.start <= at;
      assert k in after ==> after[k] != s.occurrences[k];
    } else {
      forall k | k in s.occurrences
        ensures ExpireOne(s.occurrences[k], at) == Some(s.occurrences[k])
      {
      }
      assert after == s.occurrences;
    }
  }

  // A positive acknowledgement does not always mean the delivery was recorded.
  // It is positive exactly when the delivery answered current work or some
  // pending notification had started by then. In the first case the answer is
  // on disk, whatever else had started; in the other only the expiry is.
  lemma PositiveAckMeans(o: Owner, e: Event, config: Config)
    requires LoopInv(o) && o.running && IsDelivery(e)
    requires Reduce(o.state, o.index, e, config.policy).Ok?
    ensures var n := e.payload.notification;
            var commit := CommitOf(o, e, Saved, config.policy);
            && (commit.Committed? <==> Answers(o.state, n) || AnyStarted(o.state, e.at))
            && (Answers(o.state, n) ==> commit.Committed? && Recorded(commit.disk, n, e.at))
            && (commit.Committed? && !Answers(o.state, n) ==>
                  commit.disk == o.state.(occurrences := ExpireAll(o.state.occurrences, e.at)))
  {
    var n := e.payload.notification;
    if Answers(o.state, n) {
      AnsweredIsRecorded(o.state, o.index, e, config.policy);
    } else {
      UnansweredChangesOnlyStarted(o.state, o.index, e, config.policy);
      ExpiryChangesIffStarted(o.state, e.at);
    }
  }
}
