/** The multipart stream: parts arrive in any order and are read back in id order. */
module Multipart {
  import opened Types
  import opened Arithmetic

  /** StreamPart: `body` is what its reader still has to deliver, `number` names its Done channel. */
  datatype Part = Part(number: nat, id: int, size: nat, body: Bytes)

  /** How a reader answers one Read: some bytes, as much as fits with EOF once drained, or an error. */
  datatype Answer = Partly(n: nat) | Rest | Broken(n: nat, err: nat)

  /** The fields of the stream. `reading` is the reader's program point between the locked half of
      Read and the unlocked one; `done` lists the Done channels in the order they were closed. */
  datatype Stream = Stream(err: Option<nat>, closed: bool, finished: bool, nextId: int, nextNumber: nat,
                           current: Option<Part>, parts: seq<Part>, reading: bool, done: seq<nat>)

  const Fresh: Stream := Stream(None, false, false, 1, 0, None, [], false, [])

  /** What the locked half of Read finds. */
  datatype Turn = Failed(err: nat) | Proceed | EndOfStream | Wait

  datatype Op =
    | AddPart(id: int, data: Bytes)
    | Close
    | Abort(err: Option<nat>)
    | BeginRead
    | FinishRead(room: nat, answer: Answer)

  // ---- The operations on the fields ----

  function Index(q: seq<Part>, id: int): (k: nat)
    ensures k <= |q|
    ensures k < |q| ==> q[k].id == id
    ensures forall j :: 0 <= j < k ==> q[j].id != id
  {
    if q == [] || q[0].id == id then 0 else 1 + Index(q[1..], id)
  }

  /** Appending one part to a queue sorted by id and sorting again. */
  function Insert(q: seq<Part>, p: Part): seq<Part>
  {
    if q == [] || p.id < q[|q| - 1].id then
      if q == [] then [p] else Insert(q[..|q| - 1], p) + [q[|q| - 1]]
    else q + [p]
  }

  function DoAdd(s: Stream, id: int, data: Bytes): Stream
  {
    var k := Index(s.parts, id);
    if id < s.nextId then s
    else if k < |s.parts| then s.(parts := s.parts[k := s.parts[k].(body := data)])
    else s.(nextNumber := s.nextNumber + 1, parts := Insert(s.parts, Part(s.nextNumber, id, 0, data)))
  }

  function DoAbort(s: Stream, err: Option<nat>): Stream
  {
    if s.finished then s
    else s.(err := if s.err.None? then err else s.err, finished := true, closed := true,
            done := s.done + Numbers(s.parts), parts := [])
  }

  function Numbers(q: seq<Part>): (ns: seq<nat>)
    ensures |ns| == |q| && forall i :: 0 <= i < |q| ==> ns[i] == q[i].number
  {
    seq(|q|, i requires 0 <= i < |q| => q[i].number)
  }

  function NextTurn(s: Stream): Turn
  {
    if s.err.Some? then Failed(s.err.value)
    else if s.current.Some? || (|s.parts| > 0 && s.nextId == s.parts[0].id) then Proceed
    else if s.closed then EndOfStream
    else Wait
  }

  function DoBegin(s: Stream): Stream
  {
    match NextTurn(s)
    case Failed(_) => s
    case Wait => s
    case EndOfStream => s.(finished := true)
    case Proceed =>
      if s.current.Some? then s.(reading := true)
      else s.(current := Some(s.parts[0]), parts := s.parts[1..], nextId := s.nextId + 1, reading := true)
  }

  /** Bytes handed over by a reader with `left` bytes into a buffer with `room`. */
  function Delivered(left: nat, room: nat, answer: Answer): (n: nat)
    ensures n <= left && n <= room
  {
    match answer
    case Partly(n) => Min(n, Min(left, room))
    case Rest => Min(left, room)
    case Broken(n, _) => Min(n, Min(left, room))
  }

  /** The current part after n of its bytes have been handed over. */
  function Moved(s: Stream, n: nat): Stream
    requires s.current.Some? && n <= |s.current.value.body|
  {
    var p := s.current.value;
    s.(current := Some(p.(size := p.size + n, body := p.body[n..])), reading := false)
  }

  /** Abort on an error, close a part that is drained. */
  function Settled(s: Stream, answer: Answer, drained: bool): Stream
    requires s.current.Some?
  {
    if answer.Broken? then DoAbort(s, Some(answer.err))
    else if answer.Rest? && drained then s.(current := None, done := s.done + [s.current.value.number])
    else s
  }

  /** The unlocked half of Read: new fields and the bytes returned. */
  function DoFinish(s: Stream, room: nat, answer: Answer): (Stream, Bytes)
  {
    if !s.reading || s.current.None? then (s, [])
    else
      var body := s.current.value.body;
      var n := Delivered(|body|, room, answer);
      (Settled(Moved(s, n), answer, n == |body|), body[..n])
  }

  function Step(s: Stream, op: Op): (Stream, Bytes)
  {
    match op
    case AddPart(id, data) => (DoAdd(s, id, data), [])
    case Close => (s.(closed := true), [])
    case Abort(err) => (DoAbort(s, err), [])
    case BeginRead => (DoBegin(s), [])
    case FinishRead(room, answer) => DoFinish(s, room, answer)
  }

  // ---- Runs and their history ----

  /** What an observer of a run has seen: ids offered, the data accepted last for each, bytes read. */
  datatype Seen = Seen(offered: set<int>, body: map<int, Bytes>, out: Bytes)

  function Note(s: Stream, h: Seen, op: Op): Seen
  {
    var h' := h.(out := h.out + Step(s, op).1);
    if op.AddPart? then
      h'.(offered := h.offered + {op.id}, body := if op.id < s.nextId then h.body else h.body[op.id := op.data])
    else h'
  }

  function Run(ops: seq<Op>): (Stream, Seen)
  {
    if ops == [] then (Fresh, Seen({}, map[], []))
    else
      var (s, h) := Run(ops[..|ops| - 1]);
      (Step(s, ops[|ops| - 1]).0, Note(s, h, ops[|ops| - 1]))
  }

  /** Parts 1..k one after the other. */
  ghost function Joined(body: map<int, Bytes>, k: nat): Bytes
  {
    if k == 0 then [] else Joined(body, k - 1) + if k in body then body[k] else []
  }

  ghost predicate Sorted(q: seq<Part>)
  {
    forall i, j | 0 <= i < j < |q| :: q[i].id < q[j].id
  }

  /** A queued part holds the data accepted last for its id. */
  ghost predicate Pending(p: Part, nextId: int, body: map<int, Bytes>)
  {
    p.id >= nextId && p.id in body && body[p.id] == p.body
  }

  ghost predicate Queue(q: seq<Part>, nextId: int, body: map<int, Bytes>)
  {
    Sorted(q) && forall p :: p in q ==> Pending(p, nextId, body)
  }

  /** Bytes read so far are the parts up to the current one, less what its reader still holds. */
  ghost predicate InOrder(s: Stream, h: Seen)
  {
    && s.nextId >= 1
    && Queue(s.parts, s.nextId, h.body)
    && (forall i :: 1 <= i < s.nextId ==> i in h.body)
    && (s.current.Some? ==> s.nextId >= 2)
    && h.out + Left(s.current) == Joined(h.body, s.nextId - 1)
  }

  ghost function Left(current: Option<Part>): Bytes
  {
    if current.Some? then current.value.body else []
  }

  ghost function Ids(q: seq<Part>): set<int>
  {
    set p | p in q :: p.id
  }

  /** Without a failure, nothing accepted is ever dropped, and only old ids are turned away. */
  ghost predicate NothingLost(s: Stream, h: Seen)
  {
    && (forall i :: i in h.body ==> i < s.nextId || i in Ids(s.parts))
    && (forall i :: i in h.offered ==> i < 1 || i in h.body)
    && (forall i :: i in h.body ==> i in h.offered)
  }

  /** Every channel made is waiting in the queue, belongs to the part being read, or is closed: one of
      the three, and once. */
  ghost predicate Channels(s: Stream)
  {
    forall n: nat ::
      multiset(s.done)[n] + multiset(Numbers(s.parts))[n] + Reading(s.current)[n] == if n < s.nextNumber then 1 else 0
  }

  ghost function Reading(current: Option<Part>): multiset<nat>
  {
    if current.Some? then multiset{current.value.number} else multiset{}
  }

  // ---- Queue lemmas ----

  lemma {:induction false} InsertHolds(q: seq<Part>, p: Part, x: Part)
    ensures x in Insert(q, p) <==> x in q || x == p
  {
    if q != [] && p.id < q[|q| - 1].id {
      InsertHolds(q[..|q| - 1], p, x);
      assert q == q[..|q| - 1] + [q[|q| - 1]];
    }
  }

  lemma {:induction false} InsertSorts(q: seq<Part>, p: Part)
    requires Sorted(q) && p.id !in Ids(q)
    ensures Sorted(Insert(q, p))
  {
    if q != [] && p.id < q[|q| - 1].id {
      var front, last := q[..|q| - 1], q[|q| - 1];
      InsertSorts(front, p);
      var r := Insert(front, p);
      forall i | 0 <= i < |r| ensures r[i].id < last.id {
        InsertHolds(front, p, r[i]);
      }
    } else if q != [] {
      assert q[|q| - 1].id in Ids(q);
    }
  }

  lemma {:induction false} InsertCounts(q: seq<Part>, p: Part)
    ensures multiset(Numbers(Insert(q, p))) == multiset(Numbers(q)) + multiset{p.number}
  {
    if q != [] && p.id < q[|q| - 1].id {
      var front, last := q[..|q| - 1], q[|q| - 1];
      InsertCounts(front, p);
      assert Numbers(q) == Numbers(front) + [last.number];
      assert Numbers(Insert(q, p)) == Numbers(Insert(front, p)) + [last.number];
    } else {
      assert Numbers(q + [p]) == Numbers(q) + [p.number];
    }
  }

  lemma IndexIsId(q: seq<Part>, id: int)
    ensures Index(q, id) < |q| <==> id in Ids(q)
  {
    if id in Ids(q) {
      var p :| p in q && p.id == id;
    }
  }

  lemma {:induction false} JoinedFrame(a: map<int, Bytes>, b: map<int, Bytes>, k: nat)
    requires forall i :: 1 <= i <= k ==> (i in a <==> i in b) && (i in a ==> a[i] == b[i])
    ensures Joined(a, k) == Joined(b, k)
  {
    if k > 0 {
      JoinedFrame(a, b, k - 1);
    }
  }

  // ---- Every step keeps the three invariants ----

  /** The queue after AddPart: one part more, or the same ids with one body replaced. */
  lemma AddedQueue(s: Stream, h: Seen, id: int, data: Bytes)
    requires Queue(s.parts, s.nextId, h.body) && id >= s.nextId
    ensures Queue(DoAdd(s, id, data).parts, s.nextId, h.body[id := data])
    ensures Ids(DoAdd(s, id, data).parts) == Ids(s.parts) + {id}
  {
    var q, k := DoAdd(s, id, data).parts, Index(s.parts, id);
    IndexIsId(s.parts, id);
    if k < |s.parts| {
      ReplacedQueue(s.parts, k, data, s.nextId, h.body);
    } else {
      var p := Part(s.nextNumber, id, 0, data);
      InsertSorts(s.parts, p);
      forall x ensures x in q <==> x in s.parts || x == p {
        InsertHolds(s.parts, p, x);
      }
    }
  }

  lemma ReplacedQueue(q: seq<Part>, k: nat, data: Bytes, nextId: int, body: map<int, Bytes>)
    requires Queue(q, nextId, body) && k < |q|
    ensures Queue(q[k := q[k].(body := data)], nextId, body[q[k].id := data])
    ensures Ids(q[k := q[k].(body := data)]) == Ids(q)
  {
    var r := q[k := q[k].(body := data)];
    forall p | p in r ensures Pending(p, nextId, body[q[k].id := data]) {
      var j :| 0 <= j < |r| && r[j] == p;
      assert Pending(q[j], nextId, body);
    }
    forall i ensures i in Ids(q) <==> i in Ids(r) {
      if i in Ids(q) {
        var p :| p in q && p.id == i;
        var j :| 0 <= j < |q| && q[j] == p;
        assert r[j] in r;
      }
      if i in Ids(r) {
        var p :| p in r && p.id == i;
        var j :| 0 <= j < |r| && r[j] == p;
        assert q[j] in q;
      }
    }
  }

  lemma AddKeeps(s: Stream, h: Seen, id: int, data: Bytes)
    requires InOrder(s, h)
    ensures InOrder(DoAdd(s, id, data), Note(s, h, AddPart(id, data)))
    ensures NothingLost(s, h) ==> NothingLost(DoAdd(s, id, data), Note(s, h, AddPart(id, data)))
  {
    var h' := Note(s, h, AddPart(id, data));
    assert h.out + [] == h.out;
    if id >= s.nextId {
      AddedQueue(s, h, id, data);
      JoinedFrame(h.body, h'.body, s.nextId - 1);
    }
  }

  lemma AddChannels(s: Stream, id: int, data: Bytes)
    requires Channels(s)
    ensures Channels(DoAdd(s, id, data))
  {
    var t := DoAdd(s, id, data);
    if t.nextNumber == s.nextNumber {
      assert Numbers(t.parts) == Numbers(s.parts);
    } else {
      InsertCounts(s.parts, Part(s.nextNumber, id, 0, data));
      NewChannel(s, t);
    }
  }

  lemma NewChannel(s: Stream, t: Stream)
    requires Channels(s) && t.done == s.done && t.current == s.current && t.nextNumber == s.nextNumber + 1
    requires multiset(Numbers(t.parts)) == multiset(Numbers(s.parts)) + multiset{s.nextNumber}
    ensures Channels(t)
  {
  }

  lemma AbortKeeps(s: Stream, h: Seen, err: Option<nat>)
    requires InOrder(s, h)
    ensures InOrder(DoAbort(s, err), h)
  {
  }

  lemma AbortChannels(s: Stream, err: Option<nat>)
    requires Channels(s)
    ensures Channels(DoAbort(s, err))
  {
    assert multiset(s.done + Numbers(s.parts)) == multiset(s.done) + multiset(Numbers(s.parts));
    assert Numbers([]) == [];
  }

  /** Taking the head off the queue. */
  lemma HeadTaken(q: seq<Part>, nextId: int, body: map<int, Bytes>)
    requires Queue(q, nextId, body) && q != [] && q[0].id == nextId
    ensures Queue(q[1..], nextId + 1, body) && Pending(q[0], nextId, body) && Ids(q) == {nextId} + Ids(q[1..])
  {
    assert q == [q[0]] + q[1..];
    forall x | x in q[1..] ensures Pending(x, nextId + 1, body) {
      assert Pending(x, nextId, body);
    }
  }

  lemma BeginKeeps(s: Stream, h: Seen)
    requires InOrder(s, h)
    ensures InOrder(DoBegin(s), h)
    ensures NothingLost(s, h) ==> NothingLost(DoBegin(s), h)
  {
    if NextTurn(s).Proceed? && s.current.None? {
      HeadTaken(s.parts, s.nextId, h.body);
      assert h.out + [] == h.out;
    }
  }

  lemma BeginChannels(s: Stream)
    requires Channels(s)
    ensures Channels(DoBegin(s))
  {
    if NextTurn(s).Proceed? && s.current.None? {
      assert Numbers(s.parts) == [s.parts[0].number] + Numbers(s.parts[1..]);
    }
  }

  lemma FinishKeeps(s: Stream, h: Seen, room: nat, answer: Answer)
    requires InOrder(s, h)
    ensures var op := FinishRead(room, answer); InOrder(Step(s, op).0, Note(s, h, op))
    ensures var op := FinishRead(room, answer);
            NothingLost(s, h) && !answer.Broken? ==> NothingLost(Step(s, op).0, Note(s, h, op))
  {
    assert h.out + [] == h.out;
    if s.reading && s.current.Some? {
      var p := s.current.value;
      var n := Delivered(|p.body|, room, answer);
      assert p.body == p.body[..n] + p.body[n..];
      assert h.out + p.body == (h.out + p.body[..n]) + p.body[n..];
    }
  }

  lemma SameChannels(s: Stream, t: Stream)
    requires Channels(s)
    requires t.done == s.done && t.parts == s.parts && t.nextNumber == s.nextNumber
    requires Reading(t.current) == Reading(s.current)
    ensures Channels(t)
  {
  }

  lemma CloseChannel(s: Stream, n: nat)
    requires Channels(s) && Reading(s.current) == multiset{n}
    ensures Channels(s.(current := None, done := s.done + [n]))
  {
    assert multiset(s.done + [n]) == multiset(s.done) + multiset{n};
  }

  lemma SettledChannels(s: Stream, answer: Answer, drained: bool)
    requires Channels(s) && s.current.Some?
    ensures Channels(Settled(s, answer, drained))
  {
    if answer.Broken? {
      AbortChannels(s, Some(answer.err));
    } else if answer.Rest? && drained {
      CloseChannel(s, s.current.value.number);
    }
  }

  lemma FinishChannels(s: Stream, room: nat, answer: Answer)
    requires Channels(s)
    ensures Channels(DoFinish(s, room, answer).0)
  {
    if s.reading && s.current.Some? {
      var body := s.current.value.body;
      var n := Delivered(|body|, room, answer);
      SameChannels(s, Moved(s, n));
      SettledChannels(Moved(s, n), answer, n == |body|);
    }
  }

  ghost predicate Quiet(ops: seq<Op>)
  {
    forall i :: 0 <= i < |ops| ==> QuietOp(ops[i])
  }

  predicate QuietOp(op: Op)
  {
    !op.Abort? && !(op.FinishRead? && op.answer.Broken?)
  }

  lemma StepKeeps(s: Stream, h: Seen, op: Op)
    requires InOrder(s, h)
    ensures InOrder(Step(s, op).0, Note(s, h, op))
    ensures QuietOp(op) && NothingLost(s, h) ==> NothingLost(Step(s, op).0, Note(s, h, op))
  {
    assert h.out + [] == h.out;
    match op
    case AddPart(id, data) => AddKeeps(s, h, id, data);
    case Close =>
    case Abort(err) => AbortKeeps(s, h, err);
    case BeginRead => BeginKeeps(s, h);
    case FinishRead(room, answer) => FinishKeeps(s, h, room, answer);
  }

  lemma StepChannels(s: Stream, op: Op)
    requires Channels(s)
    ensures Channels(Step(s, op).0)
  {
    match op
    case AddPart(id, data) => AddChannels(s, id, data);
    case Close =>
    case Abort(err) => AbortChannels(s, err);
    case BeginRead => BeginChannels(s);
    case FinishRead(room, answer) => FinishChannels(s, room, answer);
  }

  lemma {:induction false} RunKeeps(ops: seq<Op>)
    ensures InOrder(Run(ops).0, Run(ops).1)
    ensures Channels(Run(ops).0)
    ensures Quiet(ops) ==> NothingLost(Run(ops).0, Run(ops).1)
  {
    if ops == [] {
      assert Numbers([]) == [];
    } else {
      var front, op := ops[..|ops| - 1], ops[|ops| - 1];
      RunKeeps(front);
      var (s, h) := Run(front);
      assert Quiet(ops) ==> Quiet(front) && QuietOp(op);
      StepKeeps(s, h, op);
      StepChannels(s, op);
    }
  }

  // ---- The theorems ----

  /** k is the longest unbroken run of ids 1, 2, .. among those offered. */
  ghost predicate LongestRun(offered: set<int>, k: int)
  {
    && 0 <= k
    && (forall i :: 1 <= i <= k ==> i in offered)
    && k + 1 !in offered
  }

  lemma HeadIsLeast(q: seq<Part>, id: int, body: map<int, Bytes>)
    requires Queue(q, id, body) && id in Ids(q)
    ensures q[0].id == id
  {
    assert Pending(q[0], id, body);
  }

  /** Whatever the interleaving, a stream that reports its end without a failure has returned parts
      1..k in id order, k being the longest unbroken run of ids offered. */
  lemma ReadsPartsInOrder(ops: seq<Op>)
    requires Quiet(ops) && NextTurn(Run(ops).0).EndOfStream?
    ensures var (s, h) := Run(ops); LongestRun(h.offered, s.nextId - 1) && h.out == Joined(h.body, s.nextId - 1)
  {
    RunKeeps(ops);
    var (s, h) := Run(ops);
    assert h.out + [] == h.out;
    if s.nextId in Ids(s.parts) {
      HeadIsLeast(s.parts, s.nextId, h.body);
    }
  }

  /** Close has been called. */
  ghost predicate CloseCalled(ops: seq<Op>)
  {
    exists i :: 0 <= i < |ops| && ops[i].Close?
  }

  lemma {:induction false} QuietFlags(ops: seq<Op>)
    requires Quiet(ops)
    ensures var s := Run(ops).0; s.err == None && (s.closed <==> CloseCalled(ops))
  {
    if ops != [] {
      var front, op := ops[..|ops| - 1], ops[|ops| - 1];
      assert Quiet(front) && QuietOp(op);
      QuietFlags(front);
      assert ops == front + [op];
      assert CloseCalled(ops) <==> CloseCalled(front) || op.Close? by {
        if CloseCalled(front) {
          var i :| 0 <= i < |front| && front[i].Close?;
          assert ops[i].Close?;
        }
        if op.Close? { assert ops[|ops| - 1].Close?; }
      }
    }
  }

  /** What a reader finds after any run without failures: it goes on if a part is being read or the next
      id has been offered; otherwise it has reached the end if Close has been called, and must wait if
      not. */
  lemma TurnIs(ops: seq<Op>)
    requires Quiet(ops)
    ensures var (s, h) := Run(ops);
            var turn := NextTurn(s);
            && (turn.Proceed? <==> s.current.Some? || s.nextId in h.offered)
            && (turn.EndOfStream? <==> s.current.None? && s.nextId !in h.offered && CloseCalled(ops))
            && (turn.Wait? <==> s.current.None? && s.nextId !in h.offered && !CloseCalled(ops))
  {
    RunKeeps(ops);
    QuietFlags(ops);
    var (s, h) := Run(ops);
    if s.nextId in h.offered { HeadIsLeast(s.parts, s.nextId, h.body); }
    if |s.parts| > 0 && s.parts[0].id == s.nextId { assert Pending(s.parts[0], s.nextId, h.body); }
  }

  predicate Reads(ops: seq<Op>)
  {
    forall i :: 0 <= i < |ops| ==> ops[i].BeginRead? || (ops[i].FinishRead? && !ops[i].answer.Broken?)
  }

  /** Two reads, one half after the other, of a reader that drains its part. */
  lemma DrainOne(ops: seq<Op>) returns (more: seq<Op>)
    requires Quiet(ops) && NextTurn(Run(ops).0).Proceed?
    ensures Reads(more) && Quiet(ops + more)
    ensures var (s, h) := Run(ops);
            var (t, g) := Run(ops + more);
            && t.current.None? && g.offered == h.offered && g.body == h.body
            && t.nextId == if s.current.Some? then s.nextId else s.nextId + 1
  {
    var s := DoBegin(Run(ops).0);
    var finish := FinishRead(|s.current.value.body|, Rest);
    more := [BeginRead, finish];
    assert ops + more == ops + [BeginRead] + [finish];
    assert (ops + [BeginRead])[..|ops|] == ops;
    assert (ops + [BeginRead] + [finish])[..|ops| + 1] == ops + [BeginRead];
    assert Run(ops + [BeginRead]).0 == s;
  }

  /** The reader is never past the longest run, and at its end exactly when the next id is missing. */
  lemma UpToRun(ops: seq<Op>, k: int)
    requires Quiet(ops) && LongestRun(Run(ops).1.offered, k)
    ensures var (s, h) := Run(ops);
            && s.nextId <= k + 1 && (NextTurn(s).Proceed? <==> s.current.Some? || s.nextId <= k)
            && (!NextTurn(s).Proceed? ==> h.out == Joined(h.body, k))
  {
    RunKeeps(ops);
    TurnIs(ops);
    var (s, h) := Run(ops);
    assert k + 1 !in h.body;
    assert h.out + [] == h.out;
  }

  /** After these operations exactly the parts 1..k have been read. */
  ghost predicate HasRead(ops: seq<Op>, body: map<int, Bytes>, k: int)
    requires k >= 0
  {
    var (s, h) := Run(ops);
    Quiet(ops) && h.out == Joined(body, k) && s.current.None? && s.nextId == k + 1
  }

  lemma NothingMore(ops: seq<Op>, k: int)
    requires Quiet(ops) && LongestRun(Run(ops).1.offered, k) && !NextTurn(Run(ops).0).Proceed?
    ensures HasRead(ops, Run(ops).1.body, k)
  {
    UpToRun(ops, k);
    QuietFlags(ops);
  }

  lemma Regroup(a: seq<Op>, b: seq<Op>, c: seq<Op>)
    ensures a + (b + c) == (a + b) + c && a + [] == a
    ensures Reads(b) && Reads(c) ==> Reads(b + c)
  {
  }

  /** Nothing offered is stuck: from any run without failures some reads alone bring out exactly the
      parts 1..k, k being the longest unbroken run of ids offered, whether or not Close is ever called. */
  lemma {:induction false} ReadsOn(ops: seq<Op>, k: int) returns (more: seq<Op>)
    requires Quiet(ops) && LongestRun(Run(ops).1.offered, k)
    ensures Reads(more) && HasRead(ops + more, Run(ops).1.body, k)
    decreases k + 1 - Run(ops).0.nextId, if Run(ops).0.current.Some? then 1 else 0
  {
    if NextTurn(Run(ops).0).Proceed? {
      UpToRun(ops, k);
      var one := DrainOne(ops);
      UpToRun(ops + one, k);
      var rest := ReadsOn(ops + one, k);
      more := one + rest;
      Regroup(ops, one, rest);
    } else {
      NothingMore(ops, k);
      more := [];
      Regroup(ops, [], []);
    }
  }

  /** Parts 1..k of a given content. */
  ghost function Whole(content: int -> Bytes, k: nat): Bytes
  {
    if k == 0 then [] else Whole(content, k - 1) + content(k)
  }

  /** The ids that AddPart was called with. */
  ghost function Offered(ops: seq<Op>): set<int>
  {
    set i | 0 <= i < |ops| && ops[i].AddPart? :: ops[i].id
  }

  lemma {:induction false} BodiesAre(ops: seq<Op>, content: int -> Bytes)
    requires forall i :: 0 <= i < |ops| && ops[i].AddPart? ==> ops[i].data == content(ops[i].id)
    ensures Run(ops).1.offered == Offered(ops)
    ensures forall i :: i in Run(ops).1.body ==> Run(ops).1.body[i] == content(i)
  {
    if ops != [] {
      var front, op := ops[..|ops| - 1], ops[|ops| - 1];
      BodiesAre(front, content);
      assert ops == front + [op];
      assert Offered(ops) == Offered(front) + if op.AddPart? then {op.id} else {};
    }
  }

  lemma {:induction false} JoinedIsWhole(body: map<int, Bytes>, content: int -> Bytes, k: nat)
    requires forall i :: 1 <= i <= k ==> i in body && body[i] == content(i)
    ensures Joined(body, k) == Whole(content, k)
  {
    if k > 0 {
      JoinedIsWhole(body, content, k - 1);
    }
  }

  lemma LongestRunUnique(offered: set<int>, j: int, k: int)
    requires LongestRun(offered, j) && LongestRun(offered, k)
    ensures j == k
  {
  }

  /** When repeated uploads of a part repeat its content, the bytes read depend on the ids offered
      alone, not on the order of arrival, on repeats or on how the reads interleave. */
  lemma ArrivalOrderIrrelevant(ops: seq<Op>, content: int -> Bytes, k: int)
    requires Quiet(ops) && NextTurn(Run(ops).0).EndOfStream?
    requires forall i :: 0 <= i < |ops| && ops[i].AddPart? ==> ops[i].data == content(ops[i].id)
    requires LongestRun(Offered(ops), k)
    ensures Run(ops).1.out == Whole(content, k)
  {
    ReadsPartsInOrder(ops);
    BodiesAre(ops, content);
    RunKeeps(ops);
    var (s, h) := Run(ops);
    LongestRunUnique(h.offered, k, s.nextId - 1);
    JoinedIsWhole(h.body, content, k);
  }

  /** What an abort does to a stream that has not finished: the first error stays, the stream is closed
      and finished, every queued part is told and dropped, and from then on readers get the error. */
  lemma AbortRule(s: Stream, e: Option<nat>)
    ensures s.finished ==> DoAbort(s, e) == s
    ensures !s.finished ==>
              var t := DoAbort(s, e);
              && t == s.(err := t.err, closed := true, finished := true, parts := [], done := t.done)
              && t.err == (if s.err.Some? then s.err else e)
              && t.done == s.done + Numbers(s.parts)
              && (t.err.Some? ==> NextTurn(t) == Failed(t.err.value))
  {
  }

  /** What one read of the current part does, by the answer of its reader. */
  lemma ReadRule(s: Stream, room: nat, answer: Answer)
    requires s.reading && s.current.Some?
    ensures var p, (t, data) := s.current.value, Step(s, FinishRead(room, answer));
            && data == p.body[..|data|] && |data| <= room && !t.reading && t.nextId == s.nextId
            && (answer.Rest? ==> |data| == Min(room, |p.body|))
            && (answer.Partly? ==> |data| == Min(answer.n, Min(room, |p.body|)))
            && (answer.Rest? && |data| == |p.body| ==>
                  t.current.None? && t.done == s.done + [p.number] && t.parts == s.parts && t.err == s.err)
            && (!answer.Broken? && !(answer.Rest? && |data| == |p.body|) ==>
                  && t.current == Some(p.(size := p.size + |data|, body := p.body[|data|..]))
                  && t.done == s.done && t.parts == s.parts && t.err == s.err)
            && (answer.Broken? && !s.finished ==>
                  t.err == (if s.err.Some? then s.err else Some(answer.err)) && t.parts == [] && t.finished)
  {
  }

  /** With aborts and broken readers included, no Done channel is closed twice, and one is closed
      unless its part is still queued or is the one being read. */
  lemma DoneAtMostOnce(ops: seq<Op>, n: nat)
    ensures multiset(Run(ops).0.done)[n] <= 1
    ensures var s := Run(ops).0; n in s.done <==>
      n < s.nextNumber && n !in Numbers(s.parts) && !(s.current.Some? && s.current.value.number == n)
  {
    RunKeeps(ops);
    var s := Run(ops).0;
    assert n in s.done <==> n in multiset(s.done);
    assert n in Numbers(s.parts) <==> n in multiset(Numbers(s.parts));
  }

  function After(s: Stream, ops: seq<Op>): Stream
    decreases |ops|
  {
    if ops == [] then s else After(Step(s, ops[0]).0, ops[1..])
  }

  /** Once failed with no read under way, a stream closes no further channel, whatever happens: a part
      caught between two of its reads, and any part added later, is left waiting. */
  lemma {:induction false} FailedClosesNothing(s: Stream, ops: seq<Op>)
    requires s.err.Some? && s.finished && !s.reading
    ensures After(s, ops).done == s.done && After(s, ops).current == s.current
    decreases |ops|
  {
    if ops != [] {
      var t := Step(s, ops[0]).0;
      assert t.done == s.done && t.current == s.current;
      FailedClosesNothing(t, ops[1..]);
    }
  }

  // ---- The mutable stream ----

  class MultipartStream {
    var err: Option<nat>
    var closed: bool
    var finished: bool
    var nextId: int
    var nextNumber: nat
    var current: Option<Part>
    var parts: seq<Part>
    var reading: bool
    var done: seq<nat>

    function State(): Stream
      reads this
    {
      Stream(err, closed, finished, nextId, nextNumber, current, parts, reading, done)
    }

    constructor ()
      ensures State() == Fresh
    {
      err, closed, finished, nextId, nextNumber, current, parts, reading, done :=
        None, false, false, 1, 0, None, [], false, [];
    }

    /** Answers the number of the part that will carry the data, or an error for an id already read. */
    method AddPart(partId: int, data: Bytes) returns (r: Result<nat>)
      modifies this
      ensures State() == Step(old(State()), Op.AddPart(partId, data)).0
      ensures r.Err? <==> partId < old(nextId)
      ensures r.Ok? ==> exists p :: p in parts && p.number == r.value && p.id == partId && p.body == data
    {
      if partId < nextId {
        return Err;
      }
      var k := 0;
      while k < |parts|
        invariant 0 <= k <= |parts|
        invariant forall j :: 0 <= j < k ==> parts[j].id != partId
        invariant State() == old(State())
      {
        if parts[k].id == partId {
          parts := parts[k := parts[k].(body := data)];
          assert parts[k] in parts;
          return Ok(parts[k].number);
        }
        k := k + 1;
      }
      var part := Part(nextNumber, partId, 0, data);
      nextNumber := nextNumber + 1;
      InsertHas(parts, part);
      parts := Insert(parts, part);
      return Ok(part.number);
    }

    method Close()
      modifies this
      ensures State() == Step(old(State()), Op.Close).0
    {
      closed := true;
    }

    method Abort(e: Option<nat>)
      modifies this
      ensures State() == DoAbort(old(State()), e)
    {
      if finished {
        return;
      }
      if err.None? {
        err := e;
      }
      finished, closed := true, true;
      var i := 0;
      while i < |parts|
        invariant 0 <= i <= |parts|
        invariant done == old(done) + Numbers(parts)[..i]
        invariant State().(done := old(done)) == DoAbort(old(State()), e).(parts := parts, done := old(done))
        invariant parts == old(parts)
      {
        done := done + [parts[i].number];
        i := i + 1;
      }
      parts := [];
    }

    /** The half of Read under the lock; Wait stands for blocking on the condition variable. */
    method BeginRead() returns (turn: Turn)
      modifies this
      ensures turn == NextTurn(old(State()))
      ensures State() == Step(old(State()), Op.BeginRead).0
    {
      if err.Some? {
        return Failed(err.value);
      }
      if current.Some? {
        reading := true;
        return Proceed;
      }
      if |parts| > 0 && nextId == parts[0].id {
        current, parts, nextId, reading := Some(parts[0]), parts[1..], nextId + 1, true;
        return Proceed;
      }
      if closed {
        finished := true;
        return EndOfStream;
      }
      return Wait;
    }

    /** The half of Read outside the lock: ask the current reader, close or abort. */
    method FinishRead(room: nat, answer: Answer) returns (data: Bytes)
      requires reading && current.Some?
      modifies this
      ensures (State(), data) == Step(old(State()), Op.FinishRead(room, answer))
    {
      var p := current.value;
      var n := Delivered(|p.body|, room, answer);
      data := p.body[..n];
      current, reading := Some(p.(size := p.size + n, body := p.body[n..])), false;
      if answer.Rest? && n == |p.body| {
        done := done + [p.number];
        current := None;
      } else if answer.Broken? {
        Abort(Some(answer.err));
      }
    }
  }

  lemma InsertHas(q: seq<Part>, p: Part)
    ensures p in Insert(q, p)
  {
  }
}
