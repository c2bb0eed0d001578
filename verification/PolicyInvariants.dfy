/** What every step of the store and of the decision processes keeps. */
module PolicyInvariants {
  import opened Texts
  import opened Encodings
  import opened DurableWork
  import opened PolicyRequests
  import opened PolicyEpoch

  type History = map<string, seq<set<Binding>>>

  // ---------------------------------------------------------------- the store

  ghost function Keys(bindings: set<Binding>): set<string>
  {
    set b | b in bindings :: BindingKey(b)
  }

  lemma KeyHeld(bindings: set<Binding>, b: Binding)
    ensures BindingKey(b) in Keys(bindings) <==> b in bindings
  {
    hide BindingKey;
    forall a | a in bindings
      ensures BindingKey(a) == BindingKey(b) <==> a == b
    {
      BindingKeyInjective(a, b);
    }
  }

  lemma KeysEqual(x: set<Binding>, y: set<Binding>)
    ensures Keys(x) == Keys(y) <==> x == y
  {
    hide BindingKey, Keys;
    if Keys(x) == Keys(y) {
      forall b
        ensures b in x <==> b in y
      {
        KeyHeld(x, b);
        KeyHeld(y, b);
      }
    }
  }

  lemma KeysEdit(x: set<Binding>, b: Binding)
    ensures Keys(x + {b}) == Keys(x) + {BindingKey(b)}
    ensures Keys(x - {b}) == Keys(x) - {BindingKey(b)}
  {
    hide BindingKey;
    forall k | k in Keys(x) && k != BindingKey(b)
      ensures k in Keys(x - {b})
    {
      var a :| a in x && k == BindingKey(a);
    }
    KeyHeld(x - {b}, b);
  }

  /** Edits on keys are the edits on bindings. */
  lemma {:induction false} DraftIsEdited(x: set<Binding>, edits: seq<Edit>)
    ensures Draft(Keys(x), edits).Some? ==> Draft(Keys(x), edits).value == Keys(Edited(x, edits))
    decreases |edits|
  {
    hide BindingKey, Keys;
    if edits != [] && EditOk(edits[0]) {
      KeysEdit(x, edits[0].b);
      DraftIsEdited(if edits[0].Grant? then x + {edits[0].b} else x - {edits[0].b}, edits[1..]);
    }
  }

  /** Each epoch has its bindings, the last of them stored now, and no epoch repeats the one before. */
  ghost predicate LineOk(p: Project, line: seq<set<Binding>>)
  {
    1 <= p.epoch == |line| <= MAX_EPOCH && p.bindings == Keys(line[|line| - 1]) &&
    forall i :: 0 < i < |line| ==> line[i] != line[i - 1]
  }

  ghost predicate StoreOk(w: World)
  {
    w.projects.Keys == w.held.Keys && forall x :: x in w.projects ==> LineOk(w.projects[x], w.held[x])
  }

  /** A change counts one epoch exactly when it changes the bindings; otherwise nothing happens. */
  lemma ChangeIsCounted(p: Project, line: seq<set<Binding>>, edits: seq<Edit>, clock: Option<int>)
    requires LineOk(p, line)
    ensures var (p', reply) := Change(p, edits, clock); var next := Edited(line[|line| - 1], edits);
      (reply.Committed? ==> (reply.changed <==> next != line[|line| - 1]) && reply.epoch == p'.epoch) &&
      (reply.Committed? && reply.changed ==> LineOk(p', line + [next])) &&
      (reply.Committed? && reply.changed <==> p' != p) && (p' != p <==> p'.epoch == p.epoch + 1) && (p' == p <==> p'.epoch == p.epoch)
  {
    hide Keys;
    DraftIsEdited(line[|line| - 1], edits);
    KeysEqual(line[|line| - 1], Edited(line[|line| - 1], edits));
    hide Draft, Edited;
  }

  ghost predicate HistoryGrew(a: History, b: History)
  {
    forall x :: x in a ==> x in b && a[x] <= b[x]
  }

  lemma HistoryGrewTransitive(a: History, b: History, c: History)
    requires HistoryGrew(a, b) && HistoryGrew(b, c)
    ensures HistoryGrew(a, c)
  {
  }

  // ---------------------------------------------------------------- the processes

  /** The answer to `r` at `epoch` is what the bindings held at that epoch say. */
  ghost predicate Agrees(held: History, r: Request, epoch: int, allow: bool)
  {
    r.projectId in held && 1 <= epoch <= |held[r.projectId]| && (allow <==> Evaluate(held[r.projectId][epoch - 1], r))
  }

  ghost predicate SlotOk(p: Process, e: Entry)
  {
    1 <= e.epoch <= Floor(p, e.projectId) && e.expiresAt == e.confirmedAt + p.ttl && p.last.Some? && e.confirmedAt <= p.last.value
  }

  ghost predicate CacheOk(h: Hash, held: History, p: Process)
  {
    (p.unsafe ==> p.cache == map[]) &&
    (forall k :: k in p.cache ==> SlotOk(p, p.cache[k])) &&
    forall r :: BaseKey(h, r) in p.cache ==> EntryOk(held, r, p.cache[BaseKey(h, r)])
  }

  ghost predicate EntryOk(held: History, r: Request, e: Entry)
  {
    e.projectId == r.projectId && Agrees(held, r, e.epoch, e.allow)
  }

  ghost predicate IsNormal(r: Request)
  {
    exists input :: Normalize(input) == Some(r)
  }

  ghost predicate TicketOk(held: History, p: Process, t: Ticket)
  {
    IsNormal(t.request) && p.last.Some? && t.lookupAt <= p.last.value &&
    (t.Read? ==> Confirmed(t.snapshot, t.request) && Agrees(held, t.request, t.snapshot.epoch, Grants(t.snapshot)))
  }

  ghost predicate ProcessOk(h: Hash, held: History, p: Process)
  {
    0 < p.ttl <= MAX_TTL && (p.last.Some? ==> IsTime(p.last.value)) && CacheOk(h, held, p) &&
    forall t :: t in p.tickets ==> TicketOk(held, p, p.tickets[t])
  }

  ghost predicate Inv(h: Hash, w: World)
  {
    StoreOk(w) && forall id :: id in w.processes ==> ProcessOk(h, w.held, w.processes[id])
  }

  lemma AgreesLater(a: History, b: History, r: Request, epoch: int, allow: bool)
    requires HistoryGrew(a, b) && Agrees(a, r, epoch, allow)
    ensures Agrees(b, r, epoch, allow)
  {
  }

  lemma ProcessOkLater(h: Hash, a: History, b: History, p: Process)
    requires HistoryGrew(a, b) && ProcessOk(h, a, p)
    ensures ProcessOk(h, b, p)
  {
    hide Agrees, HistoryGrew, BaseKey, SlotOk;
    forall r | BaseKey(h, r) in p.cache
      ensures EntryOk(b, r, p.cache[BaseKey(h, r)])
    {
      var e := p.cache[BaseKey(h, r)];
      assert EntryOk(a, r, e);
      AgreesLater(a, b, r, e.epoch, e.allow);
    }
    forall t | t in p.tickets
      ensures TicketOk(b, p, p.tickets[t])
    {
      var k := p.tickets[t];
      assert TicketOk(a, p, k);
      if k.Read? { AgreesLater(a, b, k.request, k.snapshot.epoch, Grants(k.snapshot)); }
    }
  }

  // ---------------------------------------------------------------- what a process step gives

  /** The floors never fall and the clock never runs back. */
  ghost predicate ProcessGrew(p: Process, q: Process)
  {
    p.ttl == q.ttl && (p.unsafe ==> q.unsafe) && (forall x :: Floor(p, x) <= Floor(q, x)) &&
    (p.last.Some? ==> q.last.Some? && p.last.value <= q.last.value)
  }

  /** An answer agrees with the bindings of its epoch, and that epoch is the floor. */
  ghost predicate AnswerOk(held: History, q: Process, o: Outcome)
  {
    o.Answered? ==>
      Agrees(held, o.request, o.epoch, o.allow) && o.epoch == Floor(q, o.request.projectId) && !q.unsafe
  }

  ghost predicate Good(h: Hash, held: History, p: Process, q: Process, o: Outcome)
  {
    ProcessOk(h, held, q) && ProcessGrew(p, q) && AnswerOk(held, q, o)
  }

  lemma GoodSelf(h: Hash, held: History, p: Process, o: Outcome)
    requires ProcessOk(h, held, p) && !o.Answered?
    ensures Good(h, held, p, p, o)
  {
    hide ProcessOk;
  }

  lemma DropGood(h: Hash, held: History, p: Process, ticket: nat, o: Outcome)
    requires ProcessOk(h, held, p) && !o.Answered?
    ensures Good(h, held, p, Drop(p, ticket), o)
  {
    hide CacheOk, Agrees;
    UnsafeIsEmpty(h, held, p);
    SameCache(h, held, p, Drop(p, ticket));
    forall t | t in Drop(p, ticket).tickets
      ensures TicketOk(held, Drop(p, ticket), p.tickets[t])
    {
      assert TicketOk(held, p, p.tickets[t]);
    }
  }

  /** The cache stays good when only the clock, the tickets and some slots change. */
  lemma SameCache(h: Hash, held: History, p: Process, q: Process)
    requires CacheOk(h, held, p) && q.ttl == p.ttl && q.floors == p.floors && ProcessGrew(p, q)
    requires q.cache.Keys <= p.cache.Keys && (forall k :: k in q.cache ==> q.cache[k] == p.cache[k])
    requires q.unsafe ==> q.cache == map[]
    ensures CacheOk(h, held, q)
  {
    hide EntryOk, BaseKey;
    forall k | k in q.cache
      ensures SlotOk(q, q.cache[k])
    {
      assert SlotOk(p, p.cache[k]);
    }
  }

  lemma SameTickets(held: History, p: Process, q: Process)
    requires ProcessGrew(p, q) && q.tickets == p.tickets
    requires forall t :: t in p.tickets ==> TicketOk(held, p, p.tickets[t])
    ensures forall t :: t in q.tickets ==> TicketOk(held, q, q.tickets[t])
  {
    hide Agrees, IsNormal, Confirmed, Grants, Floor;
    forall t | t in q.tickets
      ensures TicketOk(held, q, q.tickets[t])
    {
      assert TicketOk(held, p, p.tickets[t]);
    }
  }

  lemma ClockGood(h: Hash, held: History, p: Process, reading: Option<int>, o: Outcome)
    requires ProcessOk(h, held, p) && !o.Answered?
    ensures var (q, now) := ObserveClock(p, reading);
      Good(h, held, p, q, o) && q.tickets == p.tickets && q.floors == p.floors &&
      (now.Some? ==> !q.unsafe && q.cache == p.cache && q.last == now && IsTime(now.value))
  {
    hide CacheOk, TicketOk;
    var q := ObserveClock(p, reading).0;
    assert ProcessGrew(p, q);
    UnsafeIsEmpty(h, held, p);
    SameCache(h, held, p, q);
    SameTickets(held, p, q);
  }

  lemma UnsafeIsEmpty(h: Hash, held: History, p: Process)
    requires CacheOk(h, held, p)
    ensures p.unsafe ==> p.cache == map[]
  {
  }

  /** From one process to the next in two goes. */
  lemma GoodThen(h: Hash, held: History, p: Process, q: Process, r: Process, o: Outcome)
    requires ProcessGrew(p, q) && Good(h, held, q, r, o)
    ensures Good(h, held, p, r, o)
  {
    hide ProcessOk, AnswerOk, Floor;
  }

  lemma UnsafeGood(h: Hash, held: History, p: Process, o: Outcome)
    requires ProcessOk(h, held, p) && !o.Answered?
    ensures Good(h, held, p, MarkUnsafe(p), o)
  {
    hide CacheOk, TicketOk;
    SameCache(h, held, p, MarkUnsafe(p));
    SameTickets(held, p, MarkUnsafe(p));
  }

  // ---------------------------------------------------------------- the steps of a decision

  /** A cached answer is the uncached one, at the floor. */
  lemma CachedAgrees(h: Hash, held: History, p: Process, r: Request, now: int)
    requires ProcessOk(h, held, p) && !p.unsafe && Usable(p, BaseKey(h, r), r.projectId, now)
    ensures var e := p.cache[BaseKey(h, r)]; Good(h, held, p, p, Answered(r, Cache, e.allow, e.epoch, now))
  {
    hide BaseKey, TicketOk, Agrees;
    var e := p.cache[BaseKey(h, r)];
    assert SlotOk(p, e);
    assert EntryOk(held, r, e);
    hide CacheOk;
  }

  lemma TicketTaken(h: Hash, held: History, p: Process, gone: set<string>, ticket: nat, t: Ticket)
    requires ProcessOk(h, held, p) && TicketOk(held, p, t)
    ensures Good(h, held, p, p.(cache := p.cache - gone, tickets := p.tickets[ticket := t]), Silent)
  {
    hide CacheOk, Agrees, IsNormal, Confirmed, Grants;
    var q := p.(cache := p.cache - gone, tickets := p.tickets[ticket := t]);
    UnsafeIsEmpty(h, held, p);
    SameCache(h, held, p, q);
    forall i | i in q.tickets
      ensures TicketOk(held, q, q.tickets[i])
    {
      if i != ticket { assert TicketOk(held, p, p.tickets[i]); }
    }
  }

  lemma LookGood(h: Hash, held: History, p: Process, ticket: nat, input: Request, reading: Option<int>)
    requires ProcessOk(h, held, p)
    ensures Good(h, held, p, Look(h, p, ticket, input, reading).0, Look(h, p, ticket, input, reading).1)
  {
    hide ProcessOk, Normalize, ObserveClock, BaseKey, ProcessGrew, AnswerOk, Usable, TicketOk;
    var request := Normalize(input);
    if request.None? {
      GoodSelf(h, held, p, FailedClosed(InputInvalid));
    } else {
      ClockGood(h, held, p, reading, FailedClosed(ClockUnsafe));
      var (q, now) := ObserveClock(p, reading);
      var r := request.value;
      if now.Some? {
        if Usable(q, BaseKey(h, r), r.projectId, now.value) {
          CachedAgrees(h, held, q, r, now.value);
        } else {
          var t := Looked(r, Floor(q, r.projectId), now.value);
          LookedOk(held, q, t, input);
          TicketTaken(h, held, q, {BaseKey(h, r)}, ticket, t);
        }
        GoodThen(h, held, p, q, Look(h, p, ticket, input, reading).0, Look(h, p, ticket, input, reading).1);
      }
    }
  }

  lemma LookedOk(held: History, p: Process, t: Ticket, input: Request)
    requires t.Looked? && p.last == Some(t.lookupAt) && Normalize(input) == Some(t.request)
    ensures TicketOk(held, p, t)
  {
  }

  /** The store's snapshot says what the bindings held now say. */
  lemma SnapshotAgrees(w: World, r: Request, failing: bool, clock: Option<int>)
    requires StoreOk(w)
    ensures var s := ReadSnapshot(w.projects, r, failing, clock);
      s.Some? ==> Agrees(w.held, r, s.value.epoch, Grants(s.value)) && s.value.epoch == w.projects[r.projectId].epoch
  {
    if r.projectId in w.projects {
      var p, line := w.projects[r.projectId], w.held[r.projectId];
      assert LineOk(p, line);
      FlagsAgree(p.bindings, line[|line| - 1], r);
      hide Evaluate, Keys;
    }
  }

  lemma HasBindingIsBound(b: set<Binding>, r: Request, principal: string)
    ensures HasBinding(Keys(b), r, principal) <==> Bound(b, r, principal)
  {
    KeyHeld(b, Binding(principal, r.resourceId, r.permission));
    hide BindingKey, Keys;
  }

  lemma FlagsAgree(keys: set<string>, b: set<Binding>, r: Request)
    requires keys == Keys(b)
    ensures true in Allowed(keys, r, [r.subjectId] + r.groups) && false !in Allowed(keys, r, r.delegation) <==> Evaluate(b, r)
  {
    hide Bound, Keys, Allowed;
    ActorFlag(b, r);
    DelegateFlags(b, r);
  }

  lemma FlagIs(b: set<Binding>, r: Request, principals: seq<string>, i: nat)
    requires i < |principals|
    ensures Allowed(Keys(b), r, principals)[i] <==> Bound(b, r, principals[i])
  {
    hide HasBinding, Bound, Keys;
    HasBindingIsBound(b, r, principals[i]);
  }

  lemma ActorFlag(b: set<Binding>, r: Request)
    ensures true in Allowed(Keys(b), r, [r.subjectId] + r.groups) <==>
      (Bound(b, r, r.subjectId) || exists i :: 0 <= i < |r.groups| && Bound(b, r, r.groups[i]))
  {
    hide HasBinding, Bound, Keys;
    var all := [r.subjectId] + r.groups;
    var flags := Allowed(Keys(b), r, all);
    FlagIs(b, r, all, 0);
    if i :| 0 <= i < |r.groups| && Bound(b, r, r.groups[i]) {
      FlagIs(b, r, all, i + 1);
      assert flags[i + 1];
    }
    if true in flags && !flags[0] {
      var j :| 0 <= j < |flags| && flags[j];
      FlagIs(b, r, all, j);
      assert all[j] == r.groups[j - 1];
    }
  }

  lemma DelegateFlags(b: set<Binding>, r: Request)
    ensures false !in Allowed(Keys(b), r, r.delegation) <==> forall i :: 0 <= i < |r.delegation| ==> Bound(b, r, r.delegation[i])
  {
    hide HasBinding, Bound, Keys;
    var flags := Allowed(Keys(b), r, r.delegation);
    forall i: nat | i < |r.delegation|
      ensures flags[i] <==> Bound(b, r, r.delegation[i])
    {
      FlagIs(b, r, r.delegation, i);
    }
    if false !in flags {
      forall i | 0 <= i < |r.delegation|
        ensures Bound(b, r, r.delegation[i])
      {
        assert flags[i] in flags;
      }
    }
  }

  lemma ReceiveGood(h: Hash, held: History, p: Process, ticket: nat, s: Option<Snapshot>)
    requires ProcessOk(h, held, p)
    requires ticket in p.tickets && s.Some? ==> Agrees(held, p.tickets[ticket].request, s.value.epoch, Grants(s.value))
    ensures Good(h, held, p, Receive(p, ticket, s).0, Receive(p, ticket, s).1)
  {
    hide CacheOk, ProcessGrew, Agrees, Confirmed, Grants, Good, IsNormal;
    DropGood(h, held, p, ticket, FailedClosed(EpochUnavailable));
    DropGood(h, held, p, ticket, FailedClosed(EpochUnconfirmed));
    GoodSelf(h, held, p, Silent);
    if ticket in p.tickets && s.Some? && p.tickets[ticket].Looked? && Confirmed(s.value, p.tickets[ticket].request) {
      var t := p.tickets[ticket];
      assert TicketOk(held, p, t);
      TicketTaken(h, held, p, {}, ticket, Read(t.request, t.lookupAt, s.value));
      assert p.cache - {} == p.cache;
    }
  }

  /** A confirmed decision: its slot answers every request that asks the same. */
  lemma KeepGood(h: Hash, held: History, p: Process, r: Request, s: Snapshot, now: int, lookupAt: int)
    requires NoCollision(h) && ProcessOk(h, held, p) && !p.unsafe && p.last == Some(now)
    requires Confirmed(s, r) && Agrees(held, r, s.epoch, Grants(s)) && Floor(p, r.projectId) <= s.epoch
    ensures Good(h, held, p, Keep(h, p, r, s, now), Answered(r, Fresh, Grants(s), s.epoch, lookupAt))
  {
    hide NoCollision, BaseKey, Agrees, Grants, CacheOk, IsNormal, TicketOk;
    var q := Keep(h, p, r, s, now);
    assert ProcessGrew(p, q);
    KeepCache(h, held, p, r, s, now);
    SameTickets(held, p, q);
  }

  lemma KeepCache(h: Hash, held: History, p: Process, r: Request, s: Snapshot, now: int)
    requires NoCollision(h) && CacheOk(h, held, p) && !p.unsafe && p.last == Some(now)
    requires Confirmed(s, r) && Agrees(held, r, s.epoch, Grants(s)) && Floor(p, r.projectId) <= s.epoch
    ensures CacheOk(h, held, Keep(h, p, r, s, now))
  {
    hide NoCollision, BaseKey, Agrees, Grants;
    var q := Keep(h, p, r, s, now);
    var key := BaseKey(h, r);
    forall k | k in q.cache
      ensures SlotOk(q, q.cache[k])
    {
      if k != key { assert SlotOk(p, p.cache[k]); }
    }
    forall o | BaseKey(h, o) in q.cache
      ensures EntryOk(held, o, q.cache[BaseKey(h, o)])
    {
      if BaseKey(h, o) == key {
        KeyIsQuestion(h, r, o);
        AgreesToo(held, r, o, s.epoch, Grants(s));
      } else {
        assert EntryOk(held, o, p.cache[BaseKey(h, o)]);
      }
    }
  }

  lemma AgreesToo(held: History, r: Request, o: Request, epoch: int, allow: bool)
    requires SameQuestion(r, o) && Agrees(held, r, epoch, allow)
    ensures Agrees(held, o, epoch, allow)
  {
    SameQuestionSameAnswer(held[r.projectId][epoch - 1], r, o);
    hide Evaluate;
  }

  lemma ConfirmGood(h: Hash, held: History, p: Process, ticket: nat, artifact: ArtifactRead, reading: Option<int>)
    requires NoCollision(h) && ProcessOk(h, held, p)
    ensures Good(h, held, p, Confirm(h, p, ticket, artifact, reading).0, Confirm(h, p, ticket, artifact, reading).1)
  {
    hide NoCollision, ProcessOk, ObserveClock, ProcessGrew, AnswerOk, Grants, Exact, Agrees, Confirmed, MarkUnsafe, Keep, Floor;
    GoodSelf(h, held, p, Silent);
    if ticket in p.tickets && p.tickets[ticket].Read? {
      var t, d := p.tickets[ticket], Drop(p, ticket);
      ReadTicket(h, held, p, ticket);
      DropGood(h, held, p, ticket, FailedClosed(ArtifactNotFound));
      DropGood(h, held, p, ticket, FailedClosed(ArtifactUnavailable));
      DropGood(h, held, p, ticket, FailedClosed(EpochUnconfirmed));
      ClockGood(h, held, d, reading, FailedClosed(ClockUnsafe));
      var (q, now) := ObserveClock(d, reading);
      GoodThen(h, held, p, d, q, FailedClosed(ClockUnsafe));
      if now.Some? && t.snapshot.epoch >= Floor(p, t.request.projectId) {
        SameFloor(p, q, t.request.projectId);
        UnsafeGood(h, held, q, FailedClosed(ClockUnsafe));
        GoodThen(h, held, p, q, MarkUnsafe(q), FailedClosed(ClockUnsafe));
        KeepGood(h, held, q, t.request, t.snapshot, now.value, t.lookupAt);
        GoodThen(h, held, p, q, Keep(h, q, t.request, t.snapshot, now.value),
          Answered(t.request, Fresh, Grants(t.snapshot), t.snapshot.epoch, t.lookupAt));
      }
    }
  }

  lemma SameFloor(p: Process, q: Process, x: string)
    requires p.floors == q.floors
    ensures Floor(p, x) == Floor(q, x)
  {
  }

  lemma ReadTicket(h: Hash, held: History, p: Process, ticket: nat)
    requires ProcessOk(h, held, p) && ticket in p.tickets && p.tickets[ticket].Read?
    ensures var t := p.tickets[ticket];
      Confirmed(t.snapshot, t.request) && Agrees(held, t.request, t.snapshot.epoch, Grants(t.snapshot)) && IsNormal(t.request) &&
      p.last.Some? && t.lookupAt <= p.last.value
  {
    assert TicketOk(held, p, p.tickets[ticket]);
  }

  lemma ObserveGood(h: Hash, held: History, p: Process, n: Notification)
    requires ProcessOk(h, held, p)
    ensures Good(h, held, p, Observe(p, n), Silent)
    ensures NotificationOk(n) ==> n.epoch <= Floor(Observe(p, n), n.projectId)
  {
    hide BaseKey, EntryOk, TicketOk;
    var q := Observe(p, n);
    assert ProcessGrew(p, q);
    forall k | k in q.cache
      ensures SlotOk(q, q.cache[k])
    {
      assert SlotOk(p, p.cache[k]);
    }
    SameTickets(held, p, q);
  }

  lemma DisposeGood(h: Hash, held: History, p: Process)
    requires ProcessOk(h, held, p)
    ensures Good(h, held, p, p.(cache := map[]), Silent)
  {
    hide CacheOk, TicketOk;
    SameCache(h, held, p, p.(cache := map[]));
    SameTickets(held, p, p.(cache := map[]));
  }
}
