/**
 * The help request lifecycle: a request is created PENDING with a deadline,
 * and leaves that state once, either RESOLVED by a supervisor (which
 * notifies the customer and teaches the knowledge base) or TIMEOUT by the
 * periodic sweep. Clock readings, fresh ids and the outcome of every store
 * write and notification are parameters.
 */
module HelpRequestService {
  import opened Base
  import opened Timestamps
  import opened Sorting
  import opened Store
  import opened HelpRequestModel
  import opened KnowledgeModel
  import opened AIService
  import opened NotificationService
  import K = KnowledgeService

  function CreatedKey(r: HelpRequest): int {
    r.createdAt
  }

  /** The fields the first write of `resolve_request` sets. */
  function ResolvedWith(r: HelpRequest, resolution: HelpRequestResolve, now: Timestamp): HelpRequest {
    r.(status := Resolved, supervisorAnswer := Some(resolution.supervisorAnswer),
       supervisorId := resolution.supervisorId, resolvedAt := Some(now), updatedAt := now)
  }

  /** The fields the second write of `resolve_request` sets. */
  function NotifiedAt(r: HelpRequest, now: Timestamp): HelpRequest {
    r.(customerNotified := true, notificationSentAt := Some(now))
  }

  /** The fields `mark_timeout` sets. */
  function TimedOut(r: HelpRequest, now: Timestamp): HelpRequest {
    r.(status := Timeout, updatedAt := now)
  }

  /** Resolving a pending request keeps the lifecycle invariant, with or without the notification mark. */
  lemma ResolveKeepsWellFormed(r: HelpRequest, resolution: HelpRequestResolve, now: Timestamp)
    requires WellFormed(r) && r.status == Pending
    ensures WellFormed(ResolvedWith(r, resolution, now))
    ensures WellFormed(NotifiedAt(ResolvedWith(r, resolution, now), now))
  {
  }

  /** `mark_timeout` does not look at the status: applied to a resolved request it breaks the invariant. */
  lemma TimeoutOfResolvedBreaksWellFormed(r: HelpRequest, now: Timestamp)
    requires WellFormed(r) && r.status == Resolved
    ensures !WellFormed(TimedOut(r, now))
  {
  }

  /** The store's status filter: everything when no status is asked for. */
  predicate Matches(r: HelpRequest, status: Option<RequestStatus>) {
    status.None? || StatusValue(r.status) == StatusValue(status.value)
  }

  function StatusFilter(s: seq<HelpRequest>, status: Option<RequestStatus>): seq<HelpRequest>
    decreases |s|
  {
    if s == [] then [] else (if Matches(s[0], status) then [s[0]] else []) + StatusFilter(s[1..], status)
  }

  lemma {:induction false} StatusFilterMembers(s: seq<HelpRequest>, status: Option<RequestStatus>)
    ensures forall r :: r in StatusFilter(s, status) <==> r in s && Matches(r, status)
    decreases |s|
  {
    if s != [] {
      StatusFilterMembers(s[1..], status);
      assert forall r :: r in s <==> r == s[0] || r in s[1..];
    }
  }

  /** Every element is the stored record under its own id. */
  predicate FromStore(m: map<string, HelpRequest>, s: seq<HelpRequest>) {
    forall i :: 0 <= i < |s| ==> s[i].requestId in m && m[s[i].requestId] == s[i]
  }

  predicate DistinctIds(s: seq<HelpRequest>) {
    forall i, j :: 0 <= i < j < |s| ==> s[i].requestId != s[j].requestId
  }

  lemma {:induction false} DistinctIdsOnce(s: seq<HelpRequest>, x: HelpRequest)
    requires DistinctIds(s)
    ensures multiset(s)[x] <= 1
    decreases |s|
  {
    if s != [] {
      assert s == [s[0]] + s[1..];
      DistinctIdsOnce(s[1..], x);
      if x == s[0] {
        assert x !in s[1..];
      }
    }
  }

  lemma Twice(t: seq<HelpRequest>, i: int, j: int)
    requires 0 <= i < j < |t| && t[i] == t[j]
    ensures multiset(t)[t[i]] >= 2
  {
    assert t == t[..i] + [t[i]] + t[i + 1..j] + [t[j]] + t[j + 1..];
  }

  /** A reordering of stored records with distinct ids has distinct ids. */
  lemma PermutationKeepsIds(m: map<string, HelpRequest>, s: seq<HelpRequest>, t: seq<HelpRequest>)
    requires FromStore(m, s) && DistinctIds(s) && multiset(t) == multiset(s)
    ensures FromStore(m, t) && DistinctIds(t)
  {
    forall i | 0 <= i < |t|
      ensures t[i].requestId in m && m[t[i].requestId] == t[i]
    {
      assert t[i] in multiset(s);
    }
    forall i, j | 0 <= i < j < |t|
      ensures t[i].requestId != t[j].requestId
    {
      if t[i].requestId == t[j].requestId {
        Twice(t, i, j);
        DistinctIdsOnce(s, t[i]);
      }
    }
  }

  lemma {:induction false} StatusFilterKeepsIds(m: map<string, HelpRequest>, s: seq<HelpRequest>, status: Option<RequestStatus>)
    requires FromStore(m, s) && DistinctIds(s)
    ensures FromStore(m, StatusFilter(s, status)) && DistinctIds(StatusFilter(s, status))
    decreases |s|
  {
    if s != [] {
      StatusFilterKeepsIds(m, s[1..], status);
      StatusFilterMembers(s[1..], status);
      var rest := StatusFilter(s[1..], status);
      forall i | 0 <= i < |rest|
        ensures rest[i].requestId != s[0].requestId
      {
        assert rest[i] in s[1..];
      }
    }
  }

  /** A request the sweep times out: pending, with a deadline, and past it. */
  predicate Expired(r: HelpRequest, now: Timestamp) {
    r.status == Pending && r.timeoutAt.Some? && now > r.timeoutAt.value
  }

  /** The store after a sweep at `now` in which the write for id `k` succeeds when `written(k)`. */
  function Swept(m: map<string, HelpRequest>, now: Timestamp, written: string -> bool): (m': map<string, HelpRequest>)
    ensures m'.Keys == m.Keys
  {
    map k | k in m :: if Expired(m[k], now) && written(k) then TimedOut(m[k], now) else m[k]
  }

  /** The ids a sweep at `now` times out. */
  function TimedOutIds(m: map<string, HelpRequest>, now: Timestamp, written: string -> bool): set<string> {
    set k | k in m && Expired(m[k], now) && written(k)
  }

  /** After a sweep, the only requests still expired are those whose write failed. */
  lemma SweepLeavesFailures(m: map<string, HelpRequest>, now: Timestamp, written: string -> bool)
    ensures forall k :: k in Swept(m, now, written) ==>
              (Expired(Swept(m, now, written)[k], now) <==> Expired(m[k], now) && !written(k))
  {
  }

  /** With the same write outcomes, a second sweep at the same time finds nothing to do. */
  lemma SweepTwiceIsNoop(m: map<string, HelpRequest>, now: Timestamp, written: string -> bool)
    ensures TimedOutIds(Swept(m, now, written), now, written) == {}
    ensures Swept(Swept(m, now, written), now, written) == Swept(m, now, written)
  {
    SweepLeavesFailures(m, now, written);
  }

  predicate AllWellFormed(m: map<string, HelpRequest>) {
    forall k :: k in m ==> WellFormed(m[k])
  }

  /** The sweep only times out pending requests, so it keeps the lifecycle invariant. */
  lemma SweepKeepsWellFormed(m: map<string, HelpRequest>, now: Timestamp, written: string -> bool)
    requires AllWellFormed(m)
    ensures AllWellFormed(Swept(m, now, written))
  {
  }

  /** Each request is stored under its own id. */
  predicate IdsMatchKeys(m: map<string, HelpRequest>) {
    forall id :: id in m ==> m[id].requestId == id
  }

  /** The store's listing holds every stored request once. */
  lemma ListingFromStore(m: map<string, HelpRequest>, ks: seq<string>)
    requires IdsMatchKeys(m) && IsOrdering(m, ks)
    ensures FromStore(m, Values(m, ks)) && DistinctIds(Values(m, ks))
    ensures forall r :: r in Values(m, ks) <==> r in m.Values
  {
    var listing := Values(m, ks);
    forall r ensures r in listing <==> r in m.Values {
      if r in m.Values {
        var k :| k in m && m[k] == r;
        var i :| 0 <= i < |ks| && ks[i] == k;
        assert listing[i] == r;
      }
    }
  }

  /** What `get_all_requests` returns lists exactly the stored requests of the status, each once. */
  lemma SortedSelection(m: map<string, HelpRequest>, ks: seq<string>, status: Option<RequestStatus>)
    requires IdsMatchKeys(m) && IsOrdering(m, ks)
    ensures var rs := SortDesc(StatusFilter(Values(m, ks), status), CreatedKey);
            && SortedDesc(rs, CreatedKey)
            && (forall r :: r in rs <==> r in m.Values && Matches(r, status))
            && FromStore(m, rs) && DistinctIds(rs)
  {
    var listing := Values(m, ks);
    var matching := StatusFilter(listing, status);
    var rs := SortDesc(matching, CreatedKey);
    ListingFromStore(m, ks);
    SortDescSorted(matching, CreatedKey);
    StatusFilterMembers(listing, status);
    forall r ensures r in rs <==> r in matching {
      assert r in rs <==> r in multiset(rs);
    }
    StatusFilterKeepsIds(m, listing, status);
    PermutationKeepsIds(m, matching, rs);
  }

  /** The ids of the requests in `s`. */
  function IdsOf(s: seq<HelpRequest>): set<string> {
    set j | 0 <= j < |s| :: s[j].requestId
  }

  lemma IdsOfStep(s: seq<HelpRequest>, i: int)
    requires 0 <= i < |s| && DistinctIds(s)
    ensures IdsOf(s[..i + 1]) == IdsOf(s[..i]) + {s[i].requestId}
    ensures s[i].requestId !in IdsOf(s[..i])
  {
    assert forall j :: 0 <= j < i ==> s[..i + 1][j] == s[..i][j];
    assert s[..i + 1][i] == s[i];
  }

  lemma IdsOfHas(s: seq<HelpRequest>, j: int)
    requires 0 <= j < |s|
    ensures s[j].requestId in IdsOf(s)
  {
  }

  /** A listing of the stored pending requests holds the id of every expired one. */
  lemma ExpiredAreListed(m: map<string, HelpRequest>, pending: seq<HelpRequest>, now: Timestamp)
    requires IdsMatchKeys(m)
    requires forall r :: r in pending <==> r in m.Values && Matches(r, Some(Pending))
    ensures forall k :: k in m && Expired(m[k], now) ==> k in IdsOf(pending)
  {
    forall k | k in m && Expired(m[k], now)
      ensures k in IdsOf(pending)
    {
      assert m[k] in m.Values;
      var j :| 0 <= j < |pending| && pending[j] == m[k];
      IdsOfHas(pending, j);
    }
  }

  /** Each element of such a listing is pending and stored under its own id. */
  lemma ListedIsPending(m: map<string, HelpRequest>, pending: seq<HelpRequest>, i: int)
    requires 0 <= i < |pending| && FromStore(m, pending)
    requires forall r :: r in pending ==> Matches(r, Some(Pending))
    ensures pending[i].requestId in m && m[pending[i].requestId] == pending[i]
    ensures pending[i].status == Pending
  {
    assert pending[i] in pending;
  }

  /** The store once the sweep has dealt with the ids in `done`. */
  function PartlySwept(m: map<string, HelpRequest>, done: set<string>, now: Timestamp, written: string -> bool): map<string, HelpRequest> {
    map k | k in m :: if k in done && Expired(m[k], now) && written(k) then TimedOut(m[k], now) else m[k]
  }

  /** The ids among `done` whose timeout was written. */
  function Counted(m: map<string, HelpRequest>, done: set<string>, now: Timestamp, written: string -> bool): set<string> {
    set k | k in done && k in m && Expired(m[k], now) && written(k)
  }

  lemma SweepStepStore(m: map<string, HelpRequest>, done: set<string>, id: string, now: Timestamp, written: string -> bool)
    requires id in m && id !in done
    ensures PartlySwept(m, done + {id}, now, written)
            == if Expired(m[id], now) && written(id) then PartlySwept(m, done, now, written)[id := TimedOut(m[id], now)]
               else PartlySwept(m, done, now, written)
  {
  }

  lemma SweepStepCount(m: map<string, HelpRequest>, done: set<string>, id: string, now: Timestamp, written: string -> bool)
    requires id in m && id !in done
    ensures |Counted(m, done + {id}, now, written)| == |Counted(m, done, now, written)| + (if Expired(m[id], now) && written(id) then 1 else 0)
  {
    if Expired(m[id], now) && written(id) {
      assert Counted(m, done + {id}, now, written) == Counted(m, done, now, written) + {id};
    } else {
      assert Counted(m, done + {id}, now, written) == Counted(m, done, now, written);
    }
  }

  /** Once every expired id has been dealt with, the partial sweep is the sweep. */
  lemma SweepDone(m: map<string, HelpRequest>, done: set<string>, now: Timestamp, written: string -> bool)
    requires forall k :: k in m && Expired(m[k], now) ==> k in done
    ensures PartlySwept(m, done, now, written) == Swept(m, now, written)
    ensures Counted(m, done, now, written) == TimedOutIds(m, now, written)
  {
  }

  function SentNotices(sent: Option<Notice>): seq<Notice> {
    if sent.Some? then [sent.value] else []
  }

  class HelpRequestService {
    /** The `help_requests` collection, by request id. */
    var requests: map<string, HelpRequest>
    /** The notifications that reached the log, oldest first. */
    var notices: seq<Notice>
    const knowledge: K.KnowledgeService
    /** Seconds from creation to the deadline. */
    const timeout: nat

    predicate Valid()
      reads this, knowledge
    {
      && IdsMatchKeys(requests)
      && knowledge.Valid()
    }

    constructor(knowledge: K.KnowledgeService, timeout: nat)
      requires knowledge.Valid()
      ensures this.knowledge == knowledge && this.timeout == timeout
      ensures requests == map[] && notices == [] && Valid()
    {
      this.knowledge := knowledge;
      this.timeout := timeout;
      requests := map[];
      notices := [];
    }

    /**
     * `create_request`: a PENDING request due `timeout` seconds from now, one
     * store write, then the supervisor notification. A failed write raises
     * before anyone is notified.
     */
    method CreateRequest(data: HelpRequestCreate, requestId: string, now: Timestamp, stored: bool, logged: bool)
      returns (r: Result<HelpRequest>)
      requires Valid()
      modifies this
      ensures Valid()
      ensures var created := NewHelpRequest(requestId, data, Some(now + timeout), now);
              if stored then
                && r == Ok(created)
                && requests == old(requests)[requestId := created]
                && notices == old(notices) + SentNotices(NotifySupervisor(created, logged))
              else
                r == Raised(DatabaseError) && requests == old(requests) && notices == old(notices)
      ensures r.Ok? ==> r.value.status == Pending && r.value.timeoutAt == Some(now + timeout) && WellFormed(r.value)
    {
      var created := NewHelpRequest(requestId, data, Some(now + timeout), now);
      if !stored {
        return Raised(DatabaseError);
      }
      requests := requests[requestId := created];
      var sent := NotifySupervisor(created, logged);
      notices := notices + SentNotices(sent);
      return Ok(created);
    }

    /** `get_request`. */
    function GetRequest(requestId: string): (r: Option<HelpRequest>)
      reads this
      ensures r.Some? <==> requestId in requests
      ensures r.Some? ==> r.value == requests[requestId]
    {
      if requestId in requests then Some(requests[requestId]) else None
    }

    /**
     * `get_all_requests`: the stored requests of the given status (all when
     * `None`), newest first. `order` is the order the store listed them in.
     */
    method GetAllRequests(status: Option<RequestStatus>) returns (rs: seq<HelpRequest>, ghost order: seq<string>)
      requires Valid()
      ensures IsOrdering(requests, order)
      ensures rs == SortDesc(StatusFilter(Values(requests, order), status), CreatedKey)
      ensures SortedDesc(rs, CreatedKey)
      ensures forall r :: r in rs <==> r in requests.Values && Matches(r, status)
      ensures FromStore(requests, rs) && DistinctIds(rs)
    {
      var ks := Enumerate(requests);
      order := ks;
      rs := SortDesc(StatusFilter(Values(requests, ks), status), CreatedKey);
      SortedSelection(requests, ks, status);
    }

    /**
     * `resolve_request`: only a PENDING request is resolved. The status write
     * comes first; then the customer is notified and, if that worked, a second
     * write marks the request notified, its outcome ignored; then the answer is
     * added to the knowledge base, and a failure there raises although the
     * request is already resolved in the store.
     */
    method ResolveRequest(requestId: string, resolution: HelpRequestResolve, now: Timestamp,
                          updated: bool, logged: bool, markWritten: bool,
                          entryId: string, complete: Completion, entryStored: bool)
      returns (r: Result<Option<HelpRequest>>)
      requires Valid()
      modifies this, knowledge
      ensures Valid()
      ensures requestId !in old(requests) || old(requests)[requestId].status != Pending || !updated ==>
                && requests == old(requests) && notices == old(notices)
                && knowledge.entries == old(knowledge.entries)
                && r == Ok(if requestId in old(requests) && old(requests)[requestId].status != Pending
                           then Some(old(requests)[requestId]) else None)
      ensures requestId in old(requests) && old(requests)[requestId].status == Pending && updated ==>
                var resolved := ResolvedWith(old(requests)[requestId], resolution, now);
                var local := if logged then NotifiedAt(resolved, now) else resolved;
                && requests == old(requests)[requestId := if logged && markWritten then local else resolved]
                && notices == old(notices)
                              + SentNotices(NotifyCustomer(resolved.customerPhone, resolved.question, resolution.supervisorAnswer, logged))
                && (if entryStored then
                      && knowledge.entries == old(knowledge.entries)[entryId := K.LearnedEntry(local, entryId, now, complete)]
                      && r == Ok(Some(local))
                    else
                      knowledge.entries == old(knowledge.entries) && r == Raised(DatabaseError))
    {
      var current := GetRequest(requestId);
      if current.None? {
        return Ok(None);
      }
      var request := current.value;
      if request.status != Pending {
        return Ok(Some(request));
      }
      if !updated {
        return Ok(None);
      }
      requests := requests[requestId := ResolvedWith(request, resolution, now)];
      request := ResolvedWith(request, resolution, now);
      var sent := NotifyCustomer(request.customerPhone, request.question, resolution.supervisorAnswer, logged);
      notices := notices + SentNotices(sent);
      if sent.Some? {
        if markWritten {
          requests := requests[requestId := NotifiedAt(request, now)];
        }
        request := NotifiedAt(request, now);
      }
      var added := knowledge.AddFromHelpRequest(request, entryId, now, complete, entryStored);
      if added.Raised? {
        return Raised(added.message);
      }
      return Ok(Some(request));
    }

    /**
     * Resolving the same request twice: once the first call has written the
     * RESOLVED status, the second returns the stored request and adds no
     * second knowledge entry, whatever its own arguments.
     */
    method ResolveTwice(requestId: string, resolution: HelpRequestResolve, now: Timestamp,
                        logged: bool, markWritten: bool, entryId: string, complete: Completion, entryStored: bool,
                        again: HelpRequestResolve, later: Timestamp, laterEntryId: string)
      returns (first: Result<Option<HelpRequest>>, second: Result<Option<HelpRequest>>)
      requires Valid() && requestId in requests && requests[requestId].status == Pending
      modifies this, knowledge
      ensures Valid()
      ensures entryStored ==> && first.Ok? && first.value.Some?
                              && first.value.value.supervisorAnswer == Some(resolution.supervisorAnswer)
                              && knowledge.entries == old(knowledge.entries)[entryId := K.LearnedEntry(first.value.value, entryId, now, complete)]
      ensures !entryStored ==> first == Raised(DatabaseError) && knowledge.entries == old(knowledge.entries)
      ensures requestId in requests && requests[requestId].status == Resolved
      ensures second == Ok(Some(requests[requestId]))
    {
      first := ResolveRequest(requestId, resolution, now, true, logged, markWritten, entryId, complete, entryStored);
      second := ResolveRequest(requestId, again, later, true, logged, markWritten, laterEntryId, complete, entryStored);
    }

    /** `mark_timeout`: sets TIMEOUT whatever the current status, and reports the write's outcome. */
    method MarkTimeout(requestId: string, now: Timestamp, written: bool) returns (ok: bool)
      requires Valid()
      modifies this
      ensures Valid()
      ensures ok == written && notices == old(notices)
      ensures requests == if written && requestId in old(requests)
                          then old(requests)[requestId := TimedOut(old(requests)[requestId], now)]
                          else old(requests)
    {
      if written && requestId in requests {
        requests := requests[requestId := TimedOut(requests[requestId], now)];
      }
      return written;
    }

    /**
     * `check_and_timeout_old_requests`: marks every expired pending request,
     * counting the marks that were written.
     */
    method CheckAndTimeoutOldRequests(now: Timestamp, written: string -> bool) returns (count: int)
      requires Valid()
      modifies this
      ensures Valid()
      ensures requests == Swept(old(requests), now, written)
      ensures count == |TimedOutIds(old(requests), now, written)|
      ensures notices == old(notices)
    {
      ghost var before := requests;
      var pending, order := GetAllRequests(Some(Pending));
      count := 0;
      for i := 0 to |pending|
        invariant Valid() && notices == old(notices)
        invariant requests == PartlySwept(before, IdsOf(pending[..i]), now, written)
        invariant count == |Counted(before, IdsOf(pending[..i]), now, written)|
      {
        var request := pending[i];
        var id := request.requestId;
        ghost var done := IdsOf(pending[..i]);
        ListedIsPending(before, pending, i);
        IdsOfStep(pending, i);
        SweepStepStore(before, done, id, now, written);
        SweepStepCount(before, done, id, now, written);
        if request.timeoutAt.Some? && now > request.timeoutAt.value {
          var ok := MarkTimeout(id, now, written(id));
          if ok {
            count := count + 1;
          }
        }
      }
      assert pending[..|pending|] == pending;
      ExpiredAreListed(before, pending, now);
      SweepDone(before, IdsOf(pending), now, written);
    }
  }
}
