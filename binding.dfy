/** A binding: a controller-side function exposed to the page under a name,
    and the servicing of one call the page makes to it (`Binding.call`). */
module Bindings {
  import opened Wrappers
  import opened RemoteContext

  /** The subtype a remote object has when it is a DOM node. */
  const NodeSubtype := "node"

  /** The text by which a transport failure is recognised. */
  const ProtocolErrorText := "Protocol error"

  /** `s.includes(sub)`. */
  function Includes(s: string, sub: string): bool
    decreases |s|
  {
    if |s| < |sub| then false
    else s[..|sub|] == sub || Includes(s[1..], sub)
  }

  /** `sub` occurs in `s` at position `i`. */
  predicate OccursAt(s: string, sub: string, i: int)
  {
    0 <= i <= |s| - |sub| && s[i..i + |sub|] == sub
  }

  /** `Includes` finds `sub` exactly when it occurs at some position of `s`. */
  lemma {:induction false} IncludesIff(s: string, sub: string)
    ensures Includes(s, sub) <==> exists i :: OccursAt(s, sub, i)
    decreases |s|
  {
    if |s| < |sub| {
    } else if s[..|sub|] == sub {
      assert OccursAt(s, sub, 0);
    } else {
      IncludesIff(s[1..], sub);
      if Includes(s[1..], sub) {
        var i :| OccursAt(s[1..], sub, i);
        assert s[i + 1..i + 1 + |sub|] == s[1..][i..i + |sub|];
        assert OccursAt(s, sub, i + 1);
      } else {
        forall i | OccursAt(s, sub, i)
          ensures false
        {
          assert i != 0;
          assert s[1..][i - 1..i - 1 + |sub|] == s[i..i + |sub|];
          assert OccursAt(s[1..], sub, i - 1);
        }
      }
    }
  }

  predicate IsProtocolError(message: string)
  {
    Includes(message, ProtocolErrorText)
  }

  /** What the catch block does with a thrown value. */
  datatype Disposition = Ignore | Reject(reason: Reason)

  /** The three-way classification of a failure: an error-like value whose
      message mentions a protocol error is dropped, any other error-like value
      becomes a rejection with its message and stack, and a non-error value
      is the rejection reason itself. */
  function Classify(t: Thrown): (d: Disposition)
    ensures d.Ignore? <==> t.ErrorLike? && IsProtocolError(t.message)
    ensures t.ErrorLike? && d.Reject? ==> d.reason == ErrorReason(t.message, t.stack)
    ensures t.Other? ==> d == Reject(ValueReason(t.value))
  {
    match t
    case ErrorLike(message, stack) =>
      if IsProtocolError(message) then Ignore else Reject(ErrorReason(message, stack))
    case Other(v) => Reject(ValueReason(v))
  }

  /** `index in args`: the property's key is a position of `args`. */
  predicate InArgs(p: Property, args: seq<Value>)
  {
    0 <= p.index < |args|
  }

  predicate IsNode(p: Property)
  {
    p.subtype == NodeSubtype
  }

  /** One turn of the substitution loop. */
  function SubstituteOne(args: seq<Value>, p: Property): seq<Value>
  {
    if InArgs(p, args) && IsNode(p) then args[p.index := Handle(p.handle)] else args
  }

  /** The substitution loop over `props`, in order. */
  function Substitute(args: seq<Value>, props: seq<Property>): (r: seq<Value>)
    ensures |r| == |args|
    decreases |props|
  {
    if props == [] then args
    else SubstituteOne(Substitute(args, props[..|props| - 1]), props[|props| - 1])
  }

  /** The keys of an enumerated property list are distinct (it is a map). */
  ghost predicate DistinctIndices(props: seq<Property>)
  {
    forall k, l :: 0 <= k < l < |props| ==> props[k].index != props[l].index
  }

  /** After the loop, position i holds a handle exactly when an enumerated
      property with key i is a node; every other position keeps its value. */
  lemma {:induction false} SubstitutedPositions(args: seq<Value>, props: seq<Property>)
    requires DistinctIndices(props)
    ensures forall k :: 0 <= k < |props| && InArgs(props[k], args) && IsNode(props[k]) ==>
      Substitute(args, props)[props[k].index] == Handle(props[k].handle)
    ensures forall i :: 0 <= i < |args| && (forall k :: 0 <= k < |props| && props[k].index == i ==> !IsNode(props[k])) ==>
      Substitute(args, props)[i] == args[i]
    decreases |props|
  {
    if props != [] {
      var init := props[..|props| - 1];
      assert DistinctIndices(init);
      SubstitutedPositions(args, init);
      forall i | 0 <= i < |args| && (forall k :: 0 <= k < |props| && props[k].index == i ==> !IsNode(props[k]))
        ensures Substitute(args, props)[i] == args[i]
      {
        assert forall k :: 0 <= k < |init| ==> init[k] == props[k];
      }
      forall k | 0 <= k < |props| && InArgs(props[k], args) && IsNode(props[k])
        ensures Substitute(args, props)[props[k].index] == Handle(props[k].handle)
      {
        if k < |init| {
          assert init[k] == props[k];
          assert props[k].index != props[|props| - 1].index;
        }
      }
    }
  }

  /** Properties that are not nodes at a position of `args` write nothing. */
  lemma {:induction false} SubstituteIgnoresOthers(args: seq<Value>, props: seq<Property>)
    requires forall k :: 0 <= k < |props| ==> !(InArgs(props[k], args) && IsNode(props[k]))
    ensures Substitute(args, props) == args
    decreases |props|
  {
    if props != [] {
      SubstituteIgnoresOthers(args, props[..|props| - 1]);
    }
  }

  /** The disposal loop over the per-index handles, in order. */
  function DisposeAll(s: Snapshot, props: seq<Property>): Snapshot
    decreases |props|
  {
    if props == [] then s
    else Release(DisposeAll(s, props[..|props| - 1]), props[|props| - 1].handle)
  }

  /** Disposing handles never touches the callbacks tables or hands out ids. */
  lemma {:induction false} DisposeAllKeeps(s: Snapshot, props: seq<Property>)
    ensures DisposeAll(s, props).pending == s.pending
    ensures DisposeAll(s, props).settled == s.settled
    ensures DisposeAll(s, props).next == s.next
    decreases |props|
  {
    if props != [] {
      DisposeAllKeeps(s, props[..|props| - 1]);
    }
  }

  /** Disposing a list of distinct live handles releases each exactly once,
      in list order. */
  lemma {:induction false} DisposeAllEffect(s: Snapshot, props: seq<Property>)
    requires forall k :: 0 <= k < |props| ==> props[k].handle in s.live
    requires forall k, l :: 0 <= k < l < |props| ==> props[k].handle != props[l].handle
    ensures DisposeAll(s, props).disposed == s.disposed + Handles(props)
    ensures forall h :: h in DisposeAll(s, props).live <==> h in s.live && h !in Handles(props)
    decreases |props|
  {
    if props != [] {
      var init := props[..|props| - 1];
      DisposeAllEffect(s, init);
      assert Handles(props) == Handles(init) + [props[|props| - 1].handle];
    }
  }

  /** How each foreign step of one run turns out: whether `evaluateHandle`
      throws, what `getProperties` enumerates or throws, and whether the
      resolve and the reject write-backs throw. */
  datatype Transport = Transport(
    fetch: Option<Thrown>,
    properties: Completion<seq<Entry>>,
    resolve: Option<Thrown>,
    reject: Option<Thrown>)

  /** The state after the try block and its finally blocks, the arguments
      after substitution, and what the catch block receives, if anything. */
  datatype Attempted = Attempted(state: Snapshot, args: seq<Value>, caught: Option<Thrown>)

  /** `await this.#fn(...args)` and the resolve write-back of its result. */
  function Invoke(s: Snapshot, id: CallId, fn: seq<Value> -> Completion<Value>,
                  a: seq<Value>, fault: Option<Thrown>): (r: (Snapshot, Option<Thrown>))
    ensures r.0.live == s.live && r.0.disposed == s.disposed && r.0.next == s.next
  {
    match fn(a)
    case Abrupt(e) => (s, Some(e))
    case Normal(v) => WriteBack(s, id, Resolved(v), fault)
  }

  /** The try block with its two finally blocks. */
  function Attempt(s: Snapshot, id: CallId, fn: seq<Value> -> Completion<Value>,
                   args: seq<Value>, t: Transport): Attempted
  {
    if t.fetch.Some? then Attempted(s, args, t.fetch)
    else
      var outer := s.next;
      var s1 := Allocate(s, 1);
      match t.properties
      case Abrupt(e) => Attempted(Release(s1, outer), args, Some(e))
      case Normal(entries) =>
        var props := Materialize(entries, s1.next);
        var s2 := Allocate(s1, |entries|);
        var a := Substitute(args, props);
        var (s3, caught) := Invoke(s2, id, fn, a, t.resolve);
        Attempted(Release(DisposeAll(s3, props), outer), a, caught)
  }

  /** The catch block: drop the failure, or reject the callback with it. */
  function Catch(s: Snapshot, id: CallId, e: Thrown, fault: Option<Thrown>): (r: (Snapshot, Option<Thrown>))
    ensures r.0.live == s.live && r.0.disposed == s.disposed && r.0.next == s.next
  {
    match Classify(e)
    case Ignore => (s, None)
    case Reject(reason) => WriteBack(s, id, Rejected(reason), fault)
  }

  /** What one `call` leaves behind: the remote state, the arguments array,
      and the value `call` itself throws, if any. */
  datatype CallResult = CallResult(state: Snapshot, args: seq<Value>, escaped: Option<Thrown>)

  function CallEffect(s: Snapshot, id: CallId, fn: seq<Value> -> Completion<Value>,
                      args: seq<Value>, t: Transport): CallResult
  {
    var a := Attempt(s, id, fn, args, t);
    if a.caught.None? then CallResult(a.state, a.args, None)
    else
      var (s', escaped) := Catch(a.state, id, a.caught.value, t.reject);
      CallResult(s', a.args, escaped)
  }

  /** The arguments the bound function is invoked with when `getProperties`
      enumerates `entries`: handles are handed out after the outer one. */
  function Invoked(s: Snapshot, args: seq<Value>, entries: seq<Entry>): seq<Value>
  {
    Substitute(args, Materialize(entries, s.next + 1))
  }

  /** Every remote step up to and including the resolve write-back completes. */
  predicate ResolveCompletes(s: Snapshot, id: CallId, fn: seq<Value> -> Completion<Value>,
                             args: seq<Value>, t: Transport)
  {
    && t.fetch.None?
    && t.properties.Normal?
    && fn(Invoked(s, args, t.properties.value)).Normal?
    && t.resolve.None?
    && id in s.pending
  }

  /** The try block writes to the callbacks table only by resolving, and it
      resolves exactly when every step completes; otherwise the catch block
      receives a value and the table is as before. */
  lemma AttemptOutcome(s: Snapshot, id: CallId, fn: seq<Value> -> Completion<Value>,
                       args: seq<Value>, t: Transport)
    ensures var a := Attempt(s, id, fn, args, t);
      a.caught.None? <==> ResolveCompletes(s, id, fn, args, t)
    ensures var a := Attempt(s, id, fn, args, t);
      ResolveCompletes(s, id, fn, args, t) ==>
        && a.args == Invoked(s, args, t.properties.value)
        && a.state.pending == s.pending - {id}
        && a.state.settled == s.settled + [Settlement(id, Resolved(fn(a.args).value))]
    ensures var a := Attempt(s, id, fn, args, t);
      !ResolveCompletes(s, id, fn, args, t) ==>
        a.state.pending == s.pending && a.state.settled == s.settled
  {
    if t.fetch.None? && t.properties.Normal? {
      var entries := t.properties.value;
      var s1 := Allocate(s, 1);
      var props := Materialize(entries, s1.next);
      var s2 := Allocate(s1, |entries|);
      var a := Substitute(args, props);
      var (s3, caught) := Invoke(s2, id, fn, a, t.resolve);
      DisposeAllKeeps(s3, props);
    }
  }

  /** Success path: the bound function gets the substituted arguments, the
      callback of `id` is resolved with its return value and its entry
      removed; entries of other calls stay, and `call` throws nothing. */
  lemma ResolvePath(s: Snapshot, id: CallId, fn: seq<Value> -> Completion<Value>,
                    args: seq<Value>, t: Transport)
    requires ResolveCompletes(s, id, fn, args, t)
    ensures var r := CallEffect(s, id, fn, args, t);
      && r.args == Invoked(s, args, t.properties.value)
      && r.state.settled == s.settled + [Settlement(id, Resolved(fn(r.args).value))]
      && r.state.pending == s.pending - {id}
      && r.escaped == None
  {
    AttemptOutcome(s, id, fn, args, t);
  }

  /** An error-like failure that mentions a protocol error ends the call
      without any write to the callbacks table and without throwing. */
  lemma ProtocolErrorDropped(s: Snapshot, id: CallId, fn: seq<Value> -> Completion<Value>,
                             args: seq<Value>, t: Transport)
    requires Attempt(s, id, fn, args, t).caught.Some?
    requires Attempt(s, id, fn, args, t).caught.value.ErrorLike?
    requires IsProtocolError(Attempt(s, id, fn, args, t).caught.value.message)
    ensures var r := CallEffect(s, id, fn, args, t);
      r.state.settled == s.settled && r.state.pending == s.pending && r.escaped == None
  {
    AttemptOutcome(s, id, fn, args, t);
  }

  /** Any other error-like failure rejects the callback of `id` with an error
      carrying the same message and stack, then removes the entry.  When that
      write-back itself fails, nothing is written and its failure is what
      `call` throws. */
  lemma ErrorRejected(s: Snapshot, id: CallId, fn: seq<Value> -> Completion<Value>,
                      args: seq<Value>, t: Transport, message: string, stack: string)
    requires Attempt(s, id, fn, args, t).caught == Some(ErrorLike(message, stack))
    requires !IsProtocolError(message)
    ensures var r := CallEffect(s, id, fn, args, t);
      if t.reject.None? && id in s.pending then
        && r.state.settled == s.settled + [Settlement(id, Rejected(ErrorReason(message, stack)))]
        && r.state.pending == s.pending - {id}
        && r.escaped == None
      else
        && r.state.settled == s.settled
        && r.state.pending == s.pending
        && r.escaped == (if t.reject.Some? then t.reject else Some(MissingCallback("reject")))
  {
    AttemptOutcome(s, id, fn, args, t);
  }

  /** A thrown value that is not error-like is the rejection reason itself. */
  lemma ValueRejected(s: Snapshot, id: CallId, fn: seq<Value> -> Completion<Value>,
                      args: seq<Value>, t: Transport, v: Value)
    requires Attempt(s, id, fn, args, t).caught == Some(Other(v))
    ensures var r := CallEffect(s, id, fn, args, t);
      if t.reject.None? && id in s.pending then
        && r.state.settled == s.settled + [Settlement(id, Rejected(ValueReason(v)))]
        && r.state.pending == s.pending - {id}
        && r.escaped == None
      else
        && r.state.settled == s.settled
        && r.state.pending == s.pending
        && r.escaped == (if t.reject.Some? then t.reject else Some(MissingCallback("reject")))
  {
    AttemptOutcome(s, id, fn, args, t);
  }

  /** One call settles the callback of `id` at most once and no other: either
      the table and the log are unchanged, or `id` was pending, its entry is
      gone and exactly one settlement for it is appended.  That settlement is
      a resolution exactly when the resolve write-back completed, so a call
      never both resolves and rejects, and rejects only when resolving did
      not complete. */
  lemma SettlesAtMostOnce(s: Snapshot, id: CallId, fn: seq<Value> -> Completion<Value>,
                          args: seq<Value>, t: Transport)
    ensures var r := CallEffect(s, id, fn, args, t);
      || (r.state.settled == s.settled && r.state.pending == s.pending)
      || (&& id in s.pending
          && r.state.pending == s.pending - {id}
          && |r.state.settled| == |s.settled| + 1
          && r.state.settled[..|s.settled|] == s.settled
          && r.state.settled[|s.settled|].id == id
          && (r.state.settled[|s.settled|].outcome.Resolved? <==> ResolveCompletes(s, id, fn, args, t)))
  {
    AttemptOutcome(s, id, fn, args, t);
    var a := Attempt(s, id, fn, args, t);
    if a.caught.Some? {
      var r := CallEffect(s, id, fn, args, t);
      if r.state.settled != s.settled {
        assert r.state.settled == s.settled + [r.state.settled[|s.settled|]];
        assert r.state.settled[|s.settled|].outcome.Rejected?;
      }
    } else {
      assert CallEffect(s, id, fn, args, t).state.settled[..|s.settled|] == s.settled;
    }
  }

  /** A call whose sequence number has no pending callback writes nothing. */
  lemma SettlesOnlyPending(s: Snapshot, id: CallId, fn: seq<Value> -> Completion<Value>,
                           args: seq<Value>, t: Transport)
    requires id !in s.pending
    ensures var r := CallEffect(s, id, fn, args, t);
      r.state.settled == s.settled && r.state.pending == s.pending
  {
    AttemptOutcome(s, id, fn, args, t);
  }

  /** However often the page's call `id` is serviced, its callback is settled
      at most once: a second call after the first adds no second settlement. */
  lemma RepeatedCallSettlesOnce(s: Snapshot, id: CallId, fn: seq<Value> -> Completion<Value>,
                                args1: seq<Value>, t1: Transport, args2: seq<Value>, t2: Transport)
    ensures var r1 := CallEffect(s, id, fn, args1, t1);
      var r2 := CallEffect(r1.state, id, fn, args2, t2);
      && s.settled <= r2.state.settled
      && |r2.state.settled| <= |s.settled| + 1
      && (forall k :: |s.settled| <= k < |r2.state.settled| ==> r2.state.settled[k].id == id)
  {
    var r1 := CallEffect(s, id, fn, args1, t1);
    SettlesAtMostOnce(s, id, fn, args1, t1);
    SettlesAtMostOnce(r1.state, id, fn, args2, t2);
    if r1.state.settled != s.settled {
      SettlesOnlyPending(r1.state, id, fn, args2, t2);
    }
  }

  /** If `call` throws, the value comes from the reject write-back of the
      catch block, which Binding.ts:74-99 does not guard. */
  lemma EscapesOnlyFromReject(s: Snapshot, id: CallId, fn: seq<Value> -> Completion<Value>,
                              args: seq<Value>, t: Transport)
    ensures var r := CallEffect(s, id, fn, args, t);
      var a := Attempt(s, id, fn, args, t);
      r.escaped.Some? ==>
        && a.caught.Some?
        && Classify(a.caught.value).Reject?
        && (r.escaped == t.reject || (t.reject.None? && id !in s.pending && r.escaped == Some(MissingCallback("reject"))))
  {
    AttemptOutcome(s, id, fn, args, t);
  }

  /** The handles one call disposes, in order: none when the fetch fails;
      otherwise every per-index handle, then the outer array handle (it is
      the first one acquired), also when `getProperties` fails. */
  function DisposalOrder(s: Snapshot, t: Transport): seq<HandleId>
  {
    if t.fetch.Some? then []
    else match t.properties
      case Abrupt(_) => [s.next]
      case Normal(entries) => IdSeq(s.next + 1, |entries|) + [s.next]
  }

  /** On every path each acquired handle is disposed exactly once, the
      per-index ones before the outer one, and afterwards exactly the
      handles that were live before the call are live. */
  lemma DisposesEveryHandle(s: Snapshot, id: CallId, fn: seq<Value> -> Completion<Value>,
                            args: seq<Value>, t: Transport)
    requires WellFormed(s)
    ensures var r := CallEffect(s, id, fn, args, t);
      && r.state.disposed == s.disposed + DisposalOrder(s, t)
      && r.state.live == s.live
      && (forall k, l :: 0 <= k < l < |DisposalOrder(s, t)| ==> DisposalOrder(s, t)[k] != DisposalOrder(s, t)[l])
      && (forall k :: 0 <= k < |DisposalOrder(s, t)| ==> DisposalOrder(s, t)[k] !in s.disposed)
  {
    var a := Attempt(s, id, fn, args, t);
    var r := CallEffect(s, id, fn, args, t);
    assert r.state.live == a.state.live && r.state.disposed == a.state.disposed;
    if t.fetch.None? && t.properties.Normal? {
      var entries := t.properties.value;
      var props := Materialize(entries, s.next + 1);
      var s3 := Invoke(Allocate(Allocate(s, 1), |entries|), id, fn, Substitute(args, props), t.resolve).0;
      DisposeInvoked(s, entries, s3);
    }
    DisposalOrderFresh(s, t);
  }

  /** The handles one call disposes are distinct and none was disposed before. */
  lemma DisposalOrderFresh(s: Snapshot, t: Transport)
    requires WellFormed(s)
    ensures var d := DisposalOrder(s, t);
      && (forall k, l :: 0 <= k < l < |d| ==> d[k] != d[l])
      && (forall k :: 0 <= k < |d| ==> d[k] !in s.disposed)
  {
    var d := DisposalOrder(s, t);
    assert forall k :: 0 <= k < |d| ==> s.next <= d[k];
    assert forall k :: 0 <= k < |d| - 1 ==> d[k] == s.next + 1 + k;
  }

  /** The two finally blocks after the bound function ran on state `s3`. */
  lemma DisposeInvoked(s: Snapshot, entries: seq<Entry>, s3: Snapshot)
    requires WellFormed(s)
    requires s3.live == Allocate(Allocate(s, 1), |entries|).live
    requires s3.disposed == s.disposed && s3.next == s.next + 1 + |entries|
    ensures var props := Materialize(entries, s.next + 1);
      var r := Release(DisposeAll(s3, props), s.next);
      && r.disposed == s.disposed + IdSeq(s.next + 1, |entries|) + [s.next]
      && r.live == s.live
  {
    var props := Materialize(entries, s.next + 1);
    DisposeAllEffect(s3, props);
    var s4 := DisposeAll(s3, props);
    assert s.next in s4.live;
    var r := Release(s4, s.next);
    forall h: HandleId ensures h in r.live <==> h in s.live {
      assert h in r.live <==> h in s4.live && h != s.next;
      InIdSeq(s.next + 1, |entries|, h);
      assert h in s4.live <==> h in s3.live && !(s.next + 1 <= h < s.next + 1 + |entries|);
    }
  }

  /** The substitution loop of Binding.ts:32-42: every enumerated
      property that is a node at a position of `args` puts its handle there. */
  method SubstituteNodes(args: array<Value>, properties: seq<Property>)
    modifies args
    ensures args[..] == Substitute(old(args[..]), properties)
  {
    var i := 0;
    while i < |properties|
      invariant 0 <= i <= |properties|
      invariant args[..] == Substitute(old(args[..]), properties[..i])
    {
      var p := properties[i];
      if 0 <= p.index < args.Length && p.subtype == NodeSubtype {
        args[p.index] := Handle(p.handle);
      }
      assert properties[..i + 1][..i] == properties[..i];
      i := i + 1;
    }
    assert properties[..i] == properties;
  }

  /** The inner finally block: dispose every per-index handle, in order. */
  method DisposeEach(context: ExecutionContext, properties: seq<Property>)
    requires context.Valid()
    modifies context
    ensures context.Valid()
    ensures context.State() == DisposeAll(old(context.State()), properties)
  {
    var j := 0;
    while j < |properties|
      invariant 0 <= j <= |properties|
      invariant context.Valid()
      invariant context.State() == DisposeAll(old(context.State()), properties[..j])
    {
      context.Dispose(properties[j].handle);
      assert properties[..j + 1][..j] == properties[..j];
      j := j + 1;
    }
    assert properties[..j] == properties;
  }

  class Binding {
    const name: string
    const fn: seq<Value> -> Completion<Value>

    constructor (name: string, fn: seq<Value> -> Completion<Value>)
      ensures this.name == name && this.fn == fn
    {
      this.name := name;
      this.fn := fn;
    }

    /** Service the page's call of this binding with sequence number `seqNum`;
        `args` is the controller-side argument array, rewritten in place. */
    method Call(context: ExecutionContext, seqNum: int, args: array<Value>, t: Transport)
      returns (escaped: Option<Thrown>)
      requires context.Valid()
      modifies context, args
      ensures context.Valid()
      ensures var r := CallEffect(old(context.State()), CallId(name, seqNum), fn, old(args[..]), t);
        context.State() == r.state && args[..] == r.args && escaped == r.escaped
    {
      var id := CallId(name, seqNum);
      ghost var a := Attempt(context.State(), id, fn, args[..], t);
      var caught: Option<Thrown> := None;
      if t.fetch.Some? {
        caught := t.fetch;
      } else {
        var handles := context.EvaluateHandle();
        match t.properties {
          case Abrupt(e) =>
            caught := Some(e);
          case Normal(entries) =>
            var properties := context.GetProperties(entries);
            SubstituteNodes(args, properties);
            var result := fn(args[..]);
            if result.Abrupt? {
              caught := Some(result.thrown);
            } else {
              caught := context.Settle(id, Resolved(result.value), t.resolve);
            }
            DisposeEach(context, properties);
        }
        context.Dispose(handles);
      }
      assert context.State() == a.state && args[..] == a.args && caught == a.caught;
      escaped := None;
      if caught.Some? {
        var d := Classify(caught.value);
        if d.Reject? {
          escaped := context.Settle(id, Rejected(d.reason), t.reject);
        }
      }
    }
  }

  /** The bound function `(a, b) => a + b` of the sum scenario.  Only its
      two-number case is a faithful `+`; other arguments are outside the
      scenario, and the thrown value there is a placeholder. */
  function Sum(a: seq<Value>): Completion<Value>
  {
    if |a| == 2 && a[0].Num? && a[1].Num? then Normal(Num(a[0].n + a[1].n))
    else Abrupt(ErrorLike("TypeError: not a number", ""))
  }

  /** The sum scenario: `sum` is called with sequence number 7 and the page
      recorded the numbers 2 and 3; the callback is resolved with 5, and the
      two per-index handles and then the outer one are disposed. */
  lemma SumScenario(s: Snapshot)
    requires WellFormed(s) && CallId("sum", 7) in s.pending
    ensures var t := Transport(None, Normal([Entry(0, ""), Entry(1, "")]), None, None);
      var r := CallEffect(s, CallId("sum", 7), Sum, [Num(2), Num(3)], t);
      && r.state.settled == s.settled + [Settlement(CallId("sum", 7), Resolved(Num(5)))]
      && r.state.pending == s.pending - {CallId("sum", 7)}
      && r.state.disposed == s.disposed + [s.next + 1, s.next + 2, s.next]
      && r.escaped == None
  {
    var id := CallId("sum", 7);
    var entries := [Entry(0, ""), Entry(1, "")];
    var t := Transport(None, Normal(entries), None, None);
    SubstituteIgnoresOthers([Num(2), Num(3)], Materialize(entries, s.next + 1));
    ResolvePath(s, id, Sum, [Num(2), Num(3)], t);
    DisposesEveryHandle(s, id, Sum, [Num(2), Num(3)], t);
    assert IdSeq(s.next + 1, 2) == [s.next + 1, s.next + 2];
  }

  /** A node argument reaches the bound function as the handle of its
      remote object, not as a cloned value. */
  lemma NodeScenario(s: Snapshot, id: CallId, fn: seq<Value> -> Completion<Value>, node: Value)
    ensures var t := Transport(None, Normal([Entry(0, "node")]), None, None);
      CallEffect(s, id, fn, [node], t).args == [Handle(s.next + 1)]
  {
  }

  /** A bound function throwing `Error("boom")` gets its callback rejected
      with an error carrying the same message and stack. */
  lemma BoomScenario(s: Snapshot, id: CallId, stack: string)
    requires id in s.pending
    ensures var t := Transport(None, Normal([]), None, None);
      var r := CallEffect(s, id, (a: seq<Value>) => Abrupt(ErrorLike("boom", stack)), [], t);
      r.state.settled == s.settled + [Settlement(id, Rejected(ErrorReason("boom", stack)))] && r.escaped == None
  {
    var t := Transport(None, Normal([]), None, None);
    var fn := (a: seq<Value>) => Abrupt(ErrorLike("boom", stack));
    assert !IsProtocolError("boom");
    ErrorRejected(s, id, fn, [], t, "boom", stack);
  }

  /** The context is destroyed before the result is delivered: the resolve
      write-back fails with a protocol error, and the call ends without a
      write and without throwing. */
  lemma TornDownScenario(s: Snapshot, id: CallId, fn: seq<Value> -> Completion<Value>,
                         message: string, stack: string)
    requires IsProtocolError(message) && fn([]).Normal?
    ensures var t := Transport(None, Normal([]), Some(ErrorLike(message, stack)), None);
      var r := CallEffect(s, id, fn, [], t);
      r.state.settled == s.settled && r.state.pending == s.pending && r.escaped == None
  {
    var t := Transport(None, Normal([]), Some(ErrorLike(message, stack)), None);
    assert Attempt(s, id, fn, [], t).caught == Some(ErrorLike(message, stack));
    ProtocolErrorDropped(s, id, fn, [], t);
  }
}
