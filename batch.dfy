/** The batch job: for every user the store enumerates, aggregate the
    month's activity, classify it, and merge-write the tier; an error for one
    user is rescued and the loop moves on, and an error while enumerating
    users is rescued once, at the top.

    Failures that come from outside (the transaction query raising, the
    write raising) are given as a fault oracle, one entry per attempted
    user. The log lines the job prints for each user are modelled by the
    sequence of per-user outcomes the loop returns. */
module Batch {
  import opened Tiers
  import opened Store
  import opened Activity

  /** What the environment does to one user's attempt. */
  datatype Fault = NoFault | QueryFault | WriteFault

  /** Why an attempt was rescued. */
  datatype UpdateError =
    | QueryFailed       // the transaction query raised (line 64)
    | AmountNotNumeric  // `sum` raised on an amount it cannot add (line 65)
    | WriteFailed       // the merge write raised (line 68)

  /** The result of one `update_user_tier` call, as the job logs it. */
  datatype UserOutcome =
    | Updated(user: UserId, tier: Tier, total: int)
    | Failed(user: UserId, error: UpdateError)

  /** The users the enumeration yields, in order, and whether it raises
      after yielding them (the query result is streamed, so it can fail
      before the first user or part way through). */
  datatype UserStream = UserStream(users: seq<UserId>, breaks: bool)

  /** Which way `run` ends: after the loop, or in its `rescue`. */
  datatype RunOutcome = Completed | Aborted

  /** One `update_user_tier` call: query, sum, classify, write, in that
      order, stopping at the first step that raises. */
  function Attempt(txs: seq<Transaction>, start: Instant, user: UserId, fault: Fault): (o: UserOutcome)
    ensures o.user == user
    ensures o.Updated? <==> fault == NoFault && UserTotal(txs, user, start).Some?
    ensures o.Updated? ==> o.total == UserTotal(txs, user, start).value && o.tier == CalculateTier(o.total)
    ensures fault == QueryFault ==> o == Failed(user, QueryFailed)
    ensures fault != QueryFault && UserTotal(txs, user, start).None? ==> o == Failed(user, AmountNotNumeric)
    ensures fault == WriteFault && UserTotal(txs, user, start).Some? ==> o == Failed(user, WriteFailed)
  {
    if fault == QueryFault then Failed(user, QueryFailed)
    else
      match UserTotal(txs, user, start)
      case None => Failed(user, AmountNotNumeric)
      case Some(total) =>
        if fault == NoFault then Updated(user, CalculateTier(total), total)
        else Failed(user, WriteFailed)
  }

  /** The store after one outcome: an update merge-writes the tier into
      that user's document; a failure has written nothing. */
  function Apply(docs: map<UserId, Document>, o: UserOutcome): (after: map<UserId, Document>)
    ensures forall u :: u != o.user ==> (u in after <==> u in docs)
    ensures forall u :: u != o.user && u in docs ==> after[u] == docs[u]
    ensures o.Failed? ==> after == docs
  {
    if o.Updated? then docs[o.user := Merge(DocOf(docs, o.user), TierPatch(o.tier))] else docs
  }

  /** The store after a sequence of outcomes, applied in order. */
  function Replay(docs: map<UserId, Document>, os: seq<UserOutcome>): (after: map<UserId, Document>)
  {
    if os == [] then docs else Apply(Replay(docs, os[..|os| - 1]), os[|os| - 1])
  }

  /** The outcomes of attempting each enumerated user once, in order, all
      against the same window start. */
  function Outcomes(txs: seq<Transaction>, start: Instant, users: seq<UserId>, faults: seq<Fault>): (os: seq<UserOutcome>)
    requires |faults| == |users|
    ensures |os| == |users|
    ensures forall i :: 0 <= i < |users| ==> os[i].user == users[i]
  {
    seq(|users|, i requires 0 <= i < |users| => Attempt(txs, start, users[i], faults[i]))
  }

  /** Some outcome in `os` is a successful update of `v`. */
  predicate UpdatedSome(os: seq<UserOutcome>, v: UserId) {
    exists i :: 0 <= i < |os| && os[i].Updated? && os[i].user == v
  }

  /** Every successful update of `v` in `os` wrote tier `t`. */
  predicate AlwaysWrites(os: seq<UserOutcome>, v: UserId, t: Tier) {
    forall i :: 0 <= i < |os| && os[i].Updated? && os[i].user == v ==> os[i].tier == t
  }

  /** The document of a user `v` after a replay: it exists exactly when it
      existed before or `v` was updated; if `v` was updated, it is the old
      document with the tier merged in; otherwise it is untouched. */
  lemma {:induction false} ReplayDocument(docs: map<UserId, Document>, os: seq<UserOutcome>, v: UserId, t: Tier)
    requires AlwaysWrites(os, v, t)
    ensures v in Replay(docs, os) <==> v in docs || UpdatedSome(os, v)
    ensures UpdatedSome(os, v) ==> Replay(docs, os)[v] == Merge(DocOf(docs, v), TierPatch(t))
    ensures !UpdatedSome(os, v) && v in docs ==> Replay(docs, os)[v] == docs[v]
  {
    if os != [] {
      var n := |os| - 1;
      var init := os[..n];
      assert AlwaysWrites(init, v, t) by {
        forall i | 0 <= i < |init| && init[i].Updated? && init[i].user == v
          ensures init[i].tier == t
        {
          assert init[i] == os[i];
        }
      }
      ReplayDocument(docs, init, v, t);
      assert UpdatedSome(os, v) <==> UpdatedSome(init, v) || (os[n].Updated? && os[n].user == v) by {
        if UpdatedSome(os, v) {
          var i :| 0 <= i < |os| && os[i].Updated? && os[i].user == v;
          if i < n {
            assert init[i] == os[i];
          }
        }
        if UpdatedSome(init, v) {
          var i :| 0 <= i < |init| && init[i].Updated? && init[i].user == v;
          assert os[i] == init[i];
        }
      }
      if os[n].Updated? && os[n].user == v {
        MergeIdempotent(DocOf(docs, v), TierPatch(t));
      }
    }
  }

  /** The tier the job computes for `v`; any tier when the sum cannot be
      formed, since no update of `v` then succeeds. */
  function TierFor(txs: seq<Transaction>, start: Instant, v: UserId): (tier: Tier)
  {
    match UserTotal(txs, v, start)
    case Some(total) => CalculateTier(total)
    case None => Bronze
  }

  /** Every successful update of a user in a batch writes the same tier. */
  lemma OutcomesWriteTierFor(txs: seq<Transaction>, start: Instant, users: seq<UserId>, faults: seq<Fault>, v: UserId)
    requires |faults| == |users|
    ensures AlwaysWrites(Outcomes(txs, start, users, faults), v, TierFor(txs, start, v))
  {
  }

  /** The end state of a whole batch, user by user: a user with at least one
      successful attempt has the tier of its window total merged into its
      old document and nothing else changed; every other user keeps its
      document exactly, including its old tier. */
  lemma BatchResult(docs: map<UserId, Document>, txs: seq<Transaction>, start: Instant,
                    users: seq<UserId>, faults: seq<Fault>, v: UserId)
    requires |faults| == |users|
    ensures var os := Outcomes(txs, start, users, faults);
      (v in Replay(docs, os) <==> v in docs || UpdatedSome(os, v)) &&
      (UpdatedSome(os, v) ==>
        UserTotal(txs, v, start).Some? &&
        Replay(docs, os)[v] == Merge(DocOf(docs, v), TierPatch(CalculateTier(UserTotal(txs, v, start).value)))) &&
      (!UpdatedSome(os, v) && v in docs ==> Replay(docs, os)[v] == docs[v])
  {
    var os := Outcomes(txs, start, users, faults);
    OutcomesWriteTierFor(txs, start, users, faults, v);
    ReplayDocument(docs, os, v, TierFor(txs, start, v));
    if UpdatedSome(os, v) {
      var i :| 0 <= i < |os| && os[i].Updated? && os[i].user == v;
    }
  }

  /** Running the batch a second time over the same records, with the same
      faults, leaves the store as the first run left it. */
  lemma {:induction false} RerunIdempotent(docs: map<UserId, Document>, txs: seq<Transaction>, start: Instant,
                                           users: seq<UserId>, faults: seq<Fault>)
    requires |faults| == |users|
    ensures var os := Outcomes(txs, start, users, faults);
      Replay(Replay(docs, os), os) == Replay(docs, os)
  {
    var os := Outcomes(txs, start, users, faults);
    var once := Replay(docs, os);
    var twice := Replay(once, os);
    forall v
      ensures (v in twice <==> v in once) && (v in once ==> twice[v] == once[v])
    {
      OutcomesWriteTierFor(txs, start, users, faults, v);
      var t := TierFor(txs, start, v);
      ReplayDocument(docs, os, v, t);
      ReplayDocument(once, os, v, t);
      if UpdatedSome(os, v) {
        MergeIdempotent(DocOf(docs, v), TierPatch(t));
      }
    }
    assert twice.Keys == once.Keys;
  }

  /** One user's failure cannot affect any other user: changing the fault
      at position `k` changes the final store at most in the document of
      the user attempted there. */
  lemma FailureIsolated(docs: map<UserId, Document>, txs: seq<Transaction>, start: Instant,
                        users: seq<UserId>, faults: seq<Fault>, k: nat, f: Fault, v: UserId)
    requires |faults| == |users| && k < |users|
    requires v != users[k]
    ensures var a := Replay(docs, Outcomes(txs, start, users, faults));
      var b := Replay(docs, Outcomes(txs, start, users, faults[k := f]));
      (v in a <==> v in b) && (v in a ==> a[v] == b[v])
  {
    var faults' := faults[k := f];
    var os := Outcomes(txs, start, users, faults);
    var os' := Outcomes(txs, start, users, faults');
    assert UpdatedSome(os, v) <==> UpdatedSome(os', v) by {
      if UpdatedSome(os, v) {
        var i :| 0 <= i < |os| && os[i].Updated? && os[i].user == v;
        assert i != k && os'[i] == os[i];
      }
      if UpdatedSome(os', v) {
        var i :| 0 <= i < |os'| && os'[i].Updated? && os'[i].user == v;
        assert i != k && os'[i] == os[i];
      }
    }
    BatchResult(docs, txs, start, users, faults, v);
    BatchResult(docs, txs, start, users, faults', v);
  }

  /** The job's service object. The store is injected rather than built
      from the environment, and the transaction collection, which the job
      only reads, is given as a sequence. */
  class TierService {
    const store: UserStore
    const transactions: seq<Transaction>

    constructor (store: UserStore, transactions: seq<Transaction>)
      ensures this.store == store && this.transactions == transactions
    {
      this.store := store;
      this.transactions := transactions;
    }

    /** `update_user_tier`: aggregate the user's records from `start` on,
        classify the total and merge-write the tier; when a step raises,
        the steps after it do not happen. */
    method UpdateUserTier(user: UserId, start: Instant, fault: Fault) returns (o: UserOutcome)
      modifies store
      ensures o == Attempt(transactions, start, user, fault)
      ensures store.docs == Apply(old(store.docs), o)
    {
      if fault == QueryFault {
        return Failed(user, QueryFailed);
      }
      var records := Select(transactions, user, start);
      var sum := SumAmounts(records);
      if sum.None? {
        return Failed(user, AmountNotNumeric);
      }
      var tier := CalculateTier(sum.value);
      if fault == WriteFault {
        return Failed(user, WriteFailed);
      }
      store.SetMerge(user, TierPatch(tier));
      o := Updated(user, tier, sum.value);
    }

    /** `process_users`: compute the window start once, then attempt every
        enumerated user exactly once, in order, rescuing each user's error.
        Returns the per-user outcomes and whether the enumeration itself
        raised after the users it yielded. */
    method ProcessUsers(stream: UserStream, faults: seq<Fault>, today: Date)
      returns (outcomes: seq<UserOutcome>, enumerationFailed: bool)
      requires |faults| == |stream.users|
      modifies store
      ensures outcomes == Outcomes(transactions, WindowStart(today), stream.users, faults)
      ensures store.docs == Replay(old(store.docs), outcomes)
      ensures enumerationFailed == stream.breaks
    {
      var start := WindowStart(today);
      outcomes := [];
      var i := 0;
      while i < |stream.users|
        invariant 0 <= i <= |stream.users|
        invariant |outcomes| == i
        invariant forall k :: 0 <= k < i ==> outcomes[k] == Attempt(transactions, start, stream.users[k], faults[k])
        invariant store.docs == Replay(old(store.docs), outcomes)
      {
        var o := UpdateUserTier(stream.users[i], start, faults[i]);
        assert (outcomes + [o])[..i] == outcomes;
        outcomes := outcomes + [o];
        i := i + 1;
      }
      enumerationFailed := stream.breaks;
    }

    /** `run`: process the users; an enumeration failure is rescued here and
        not re-raised. The users handled before the failure keep their new
        tiers. */
    method Run(stream: UserStream, faults: seq<Fault>, today: Date) returns (result: RunOutcome)
      requires |faults| == |stream.users|
      modifies store
      ensures store.docs == Replay(old(store.docs), Outcomes(transactions, WindowStart(today), stream.users, faults))
      ensures result == if stream.breaks then Aborted else Completed
    {
      var _, failed := ProcessUsers(stream, faults, today);
      result := if failed then Aborted else Completed;
    }
  }

  /** A client of the service: when the user enumeration raises before
      yielding any user, `run` rescues the error, ends Aborted, and the
      store is exactly as it was. */
  method EnumerationFailsFirst(docs: map<UserId, Document>, txs: seq<Transaction>, today: Date)
    returns (result: RunOutcome, after: map<UserId, Document>)
    ensures result == Aborted
    ensures after == docs
  {
    var store := new UserStore(docs);
    var service := new TierService(store, txs);
    result := service.Run(UserStream([], true), [], today);
    after := store.docs;
  }

  /** Records for the three-user scenario below: two for the first user
      (50 recoins and a nil amount), three for the third user (60 and 40
      this month, 500 on the last instant of the previous month). */
  function ScenarioRecords(u1: UserId, u3: UserId): seq<Transaction>
  {
    [Transaction(u1, Instant(Date(2026, 10, 3), 0), Int(50)),
     Transaction(u3, Instant(Date(2026, 10, 1), 0), Int(60)),
     Transaction(u3, Instant(Date(2026, 9, 30), 86399), Int(500)),
     Transaction(u1, Instant(Date(2026, 10, 9), 0), Null),
     Transaction(u3, Instant(Date(2026, 10, 12), 0), Int(40))]
  }

  lemma ScenarioTotals(u1: UserId, u3: UserId)
    requires u1 != u3
    ensures UserTotal(ScenarioRecords(u1, u3), u1, WindowStart(Date(2026, 10, 16))) == Some(50)
    ensures UserTotal(ScenarioRecords(u1, u3), u3, WindowStart(Date(2026, 10, 16))) == Some(100)
  {
    var txs := ScenarioRecords(u1, u3);
    var start := WindowStart(Date(2026, 10, 16));
    assert Select(txs[4..], u1, start) == [];
    assert Select(txs[3..], u1, start) == [txs[3]];
    assert Select(txs[1..], u1, start) == [txs[3]];
    assert SumAmounts([txs[3]]) == Some(0);
    assert Select(txs, u1, start) == [txs[0], txs[3]];
    assert [txs[0], txs[3]][1..] == [txs[3]];
    assert Select(txs[4..], u3, start) == [txs[4]];
    assert Select(txs[2..], u3, start) == [txs[4]];
    assert SumAmounts([txs[4]]) == Some(40);
    assert Select(txs, u3, start) == [txs[1], txs[4]];
    assert [txs[1], txs[4]][1..] == [txs[4]];
    assert SumAmounts([txs[1], txs[4]]) == Some(100);
  }

  /** Three users, the second one's transaction query raises: the first and
      third are still updated (50 recoins is Silver, 100 is Gold, a record
      from the previous month and a nil amount count for nothing), and the
      second fails. */
  lemma ThreeUsersSecondFails(u1: UserId, u2: UserId, u3: UserId)
    requires u1 != u3
    ensures Outcomes(ScenarioRecords(u1, u3), WindowStart(Date(2026, 10, 16)), [u1, u2, u3], [NoFault, QueryFault, NoFault])
      == [Updated(u1, Silver, 50), Failed(u2, QueryFailed), Updated(u3, Gold, 100)]
  {
    ScenarioTotals(u1, u3);
  }
}
