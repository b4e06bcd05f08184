/** The approve-then-effect protocol that the three customer records share: each is an immutable scope
    under a header. A record's digest is the record itself, its scope digest the scope. */
module ApprovalRecords {
  import opened Wrappers

  datatype Status = Awaiting | Approved | InProgress | Done | NeedsReconciliation

  datatype Header = Header(
    created: int, updated: int, status: Status, approvedAt: Option<int>, approvedBy: Option<string>, failure: Option<string>)

  /** What the record constructors demand of a header. */
  predicate Constructible(h: Header) {
    && h.created <= h.updated
    && (h.approvedAt.None? <==> h.approvedBy.None?)
    && (h.status == Awaiting ==> h.approvedAt.None?)
    && (h.status in {Approved, InProgress, Done} ==> h.approvedAt.Some?)
    && (h.status == NeedsReconciliation <==> h.failure.Some?)
  }

  /** Constructing a record raises instead of yielding one whose header is refused. */
  function Construct(h: Header): Option<Header> {
    if Constructible(h) then Some(h) else None
  }

  function Fresh(now: int): (h: Header)
    ensures Constructible(h)
  {
    Header(now, now, Awaiting, None, None, None)
  }

  function ApprovedBy(h: Header, customer: string, now: int): Header {
    h.(status := Approved, approvedAt := Some(now), approvedBy := Some(customer), updated := now)
  }

  function Began(h: Header, now: int): Header {
    h.(status := InProgress, updated := now)
  }

  function Finished(h: Header, now: int): Header {
    h.(status := Done, updated := now)
  }

  function Failed(h: Header, now: int): Header {
    h.(status := NeedsReconciliation, failure := Some("error"), updated := now)
  }

  /** The only ways a stored header changes. */
  predicate Advances(h: Header, h': Header) {
    && h'.created == h.created && Constructible(h')
    && match h.status
       case Awaiting => h'.status == Approved
       case Approved => h'.status == InProgress && h'.approvedBy == h.approvedBy
       case InProgress => (h'.status == Done || h'.status == NeedsReconciliation) && h'.approvedBy == h.approvedBy
       case _ => false
  }

  /** A transition from a stored header is constructible exactly when the clock has not fallen behind
      the record's creation; so is the failure handler's. */
  lemma TransitionsNeedOnlyTheClock(h: Header, customer: string, now: int)
    requires Constructible(h)
    ensures h.status == Awaiting ==> (Constructible(ApprovedBy(h, customer, now)) <==> h.created <= now)
    ensures h.status == Approved ==> (Constructible(Began(h, now)) <==> h.created <= now)
    ensures h.status == InProgress ==> (Constructible(Finished(h, now)) <==> h.created <= now)
    ensures h.status == InProgress ==> (Constructible(Failed(h, now)) <==> h.created <= now)
  {
  }

  datatype StoreReply<+R> = Stored(record: R) | Created(record: R) | Absent | Conflict

  /** `create`: write once; the same scope again returns what is stored. */
  function CreateReply<I, R>(records: map<I, R>, id: I, value: R, sameScope: (R, R) -> bool): StoreReply<R> {
    if id !in records then Created(value)
    else if sameScope(records[id], value) then Stored(records[id])
    else Conflict
  }

  /** `replace`: the stored record must be the expected one, and its scope must not change. */
  function ReplaceReply<I, R(==)>(records: map<I, R>, id: I, value: R, expected: R, sameScope: (R, R) -> bool): StoreReply<R> {
    if id !in records then Absent
    else if records[id] != expected || !sameScope(records[id], value) then Conflict
    else Stored(value)
  }
}
