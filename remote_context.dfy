/** An abstract model of the remote page state that a binding call works
    against: the per-binding `callbacks` tables kept by the page, the log of
    resolve/reject calls made on their promise pairs, and the remote object
    handles the controller holds.  The transport that carries scripts to the
    page is not modelled; each remote step is a transition of this state. */
module RemoteContext {
  import opened Wrappers

  type HandleId = nat

  /** A value as it crosses the boundary: a structurally cloned value, or a
      handle to a remote object (what an argument becomes when it is a node). */
  datatype Value = Undefined | Num(n: int) | Str(s: string) | Handle(id: HandleId)

  /** What a step can throw: an error-like object (one with a name and a
      message), or any other value. */
  datatype Thrown = ErrorLike(message: string, stack: string) | Other(value: Value)

  /** The completion of a step: a normal value or a thrown one. */
  datatype Completion<T> = Normal(value: T) | Abrupt(thrown: Thrown)

  /** A pending call is identified by the binding name and the sequence number. */
  datatype CallId = CallId(name: string, seqNum: int)

  /** The reason a remote promise is rejected with: an `Error` rebuilt from a
      message and a stack, or a value passed through as it is. */
  datatype Reason = ErrorReason(message: string, stack: string) | ValueReason(value: Value)

  datatype Outcome = Resolved(value: Value) | Rejected(reason: Reason)

  /** One call of `resolve` or `reject` on the callback pair of `id`. */
  datatype Settlement = Settlement(id: CallId, outcome: Outcome)

  /** One indexed property of the remote argument array, as enumerated by
      `getProperties`: its key and the subtype of its remote object. */
  datatype Entry = Entry(index: int, subtype: string)

  /** An enumerated property together with the handle that now refers to it. */
  datatype Property = Property(index: int, subtype: string, handle: HandleId)

  datatype Snapshot = Snapshot(
    pending: set<CallId>,       // keys present in the callbacks tables
    settled: seq<Settlement>,   // every resolve/reject performed, in order
    live: set<HandleId>,        // handles acquired and not yet disposed
    disposed: seq<HandleId>,    // handles disposed, in order
    next: HandleId)             // the id the next acquired handle gets

  /** Handle ids are handed out from `next` upwards, so every live or
      disposed handle lies below it. */
  ghost predicate WellFormed(s: Snapshot)
  {
    && (forall h :: h in s.live ==> h < s.next)
    && (forall k :: 0 <= k < |s.disposed| ==> s.disposed[k] < s.next)
  }

  /** The `n` handle ids from `lo` upwards. */
  function IdRange(lo: HandleId, n: nat): (r: set<HandleId>)
    ensures forall h :: h in r <==> lo <= h < lo + n
  {
    if n == 0 then {} else IdRange(lo, n - 1) + {lo + n - 1}
  }

  /** The `n` consecutive handle ids from `lo`, in increasing order. */
  function IdSeq(lo: HandleId, n: nat): (r: seq<HandleId>)
    ensures |r| == n
    ensures forall k, l :: 0 <= k < l < n ==> r[k] < r[l]
  {
    seq(n, k requires 0 <= k < n => lo + k)
  }

  /** `IdSeq` lists, in order, exactly the block of ids `IdRange` holds. */
  lemma InIdSeq(lo: HandleId, n: nat, h: HandleId)
    ensures h in IdSeq(lo, n) <==> h in IdRange(lo, n)
  {
    if lo <= h < lo + n {
      assert IdSeq(lo, n)[h - lo] == h;
    }
  }

  /** The handles of `props`, in order. */
  function Handles(props: seq<Property>): seq<HandleId>
  {
    seq(|props|, k requires 0 <= k < |props| => props[k].handle)
  }

  /** Acquiring `n` fresh handles. */
  function Allocate(s: Snapshot, n: nat): (r: Snapshot)
    ensures WellFormed(s) ==> WellFormed(r)
    ensures forall h :: h in r.live <==> h in s.live || s.next <= h < s.next + n
  {
    s.(live := s.live + IdRange(s.next, n), next := s.next + n)
  }

  /** The properties `getProperties` returns for `entries` when handles are
      handed out from `start`. */
  function Materialize(entries: seq<Entry>, start: HandleId): (props: seq<Property>)
    ensures |props| == |entries|
    ensures Handles(props) == IdSeq(start, |entries|)
  {
    seq(|entries|, k requires 0 <= k < |entries| =>
      Property(entries[k].index, entries[k].subtype, start + k))
  }

  /** Disposing a handle releases it once; disposing it again does nothing. */
  function Release(s: Snapshot, h: HandleId): (r: Snapshot)
    ensures WellFormed(s) ==> WellFormed(r)
    ensures h in s.live ==> r.live == s.live - {h} && r.disposed == s.disposed + [h]
    ensures h !in s.live ==> r == s
    ensures r.pending == s.pending && r.settled == s.settled && r.next == s.next
  {
    if h in s.live then s.(live := s.live - {h}, disposed := s.disposed + [h]) else s
  }

  /** The error the page throws when the callbacks table has no entry for the
      sequence number: `callbacks.get(seq)` is undefined. */
  function MissingCallback(operation: string): Thrown
  {
    ErrorLike("TypeError: Cannot read properties of undefined (reading '" + operation + "')", "")
  }

  /** The write-back script: look up `callbacks.get(seq)`, resolve or reject
      it, then delete the entry.  The script fails as `fault` says, or when
      there is no entry to settle; a failed script changes nothing. */
  function WriteBack(s: Snapshot, id: CallId, outcome: Outcome, fault: Option<Thrown>): (r: (Snapshot, Option<Thrown>))
    ensures r.1.None? <==> fault.None? && id in s.pending
    ensures r.1.None? ==> r.0 == s.(pending := s.pending - {id}, settled := s.settled + [Settlement(id, outcome)])
    ensures r.1.Some? ==> r.0 == s
    ensures fault.Some? ==> r.1 == fault
  {
    if fault.Some? then (s, fault)
    else if id !in s.pending then
      (s, Some(MissingCallback(if outcome.Resolved? then "resolve" else "reject")))
    else (s.(pending := s.pending - {id}, settled := s.settled + [Settlement(id, outcome)]), None)
  }

  /** The execution context the binding is called in, seen through the state
      the call touches. */
  class ExecutionContext {
    var pending: set<CallId>
    var settled: seq<Settlement>
    var live: set<HandleId>
    var disposed: seq<HandleId>
    var next: HandleId

    function State(): Snapshot
      reads this
    {
      Snapshot(pending, settled, live, disposed, next)
    }

    ghost predicate Valid()
      reads this
    {
      WellFormed(State())
    }

    /** A fresh context whose page has registered callbacks for `pending`. */
    constructor (pending: set<CallId>)
      ensures Valid()
      ensures State() == Snapshot(pending, [], {}, [], 0)
    {
      this.pending := pending;
      settled := [];
      live := {};
      disposed := [];
      next := 0;
    }

    /** `evaluateHandle` returning normally: a fresh handle to its result. */
    method EvaluateHandle() returns (h: HandleId)
      requires Valid()
      modifies this
      ensures Valid()
      ensures h == old(next) && h !in old(live)
      ensures State() == Allocate(old(State()), 1)
    {
      h := next;
      live := live + {h};
      next := next + 1;
      assert IdRange(old(next), 1) == {h};
    }

    /** `getProperties` returning normally: one fresh handle per property. */
    method GetProperties(entries: seq<Entry>) returns (props: seq<Property>)
      requires Valid()
      modifies this
      ensures Valid()
      ensures props == Materialize(entries, old(next))
      ensures State() == Allocate(old(State()), |entries|)
    {
      props := Materialize(entries, next);
      live := live + IdRange(next, |entries|);
      next := next + |entries|;
    }

    /** `dispose` on a handle. */
    method Dispose(h: HandleId)
      requires Valid()
      modifies this
      ensures Valid()
      ensures State() == Release(old(State()), h)
    {
      if h in live {
        live := live - {h};
        disposed := disposed + [h];
      }
    }

    /** `evaluate` of a write-back script; returns what it threw, if anything. */
    method Settle(id: CallId, outcome: Outcome, fault: Option<Thrown>) returns (thrown: Option<Thrown>)
      requires Valid()
      modifies this
      ensures Valid()
      ensures (State(), thrown) == WriteBack(old(State()), id, outcome, fault)
    {
      if fault.Some? {
        thrown := fault;
      } else if id !in pending {
        thrown := Some(MissingCallback(if outcome.Resolved? then "resolve" else "reject"));
      } else {
        pending := pending - {id};
        settled := settled + [Settlement(id, outcome)];
        thrown := None;
      }
    }
  }
}
