/** The ESP-NOW layer (esp_mesh_lite_espnow.c): receive callbacks in a linked list, one type
    byte in front of every frame, and the checked frame that zero_provisioning.c sends through
    it. */
module EspNow {
  import opened Seqs
  import opened LinkedLists
  import opened Words

  // ---- the receive callbacks

  type Callback = nat

  datatype Registration = Registration(kind: U8, callback: Callback)

  datatype Op = Register(kind: U8, callback: Callback) | Unregister(kind: U8)

  datatype RadioRet = Ok | Fail | InvalidState | NotFound

  function OfKind(kind: U8): Registration -> bool
  {
    (r: Registration) => r.kind == kind
  }

  function CallbackOf(): Registration -> Callback
  {
    (r: Registration) => r.callback
  }

  /** The callbacks registered for a type, the latest first. */
  function StackOf(list: seq<Registration>, kind: U8): seq<Callback>
  {
    Apply(CallbackOf(), Filter(OfKind(kind), list))
  }

  /** What an operation does to a plain stack of callbacks. */
  function PushPop(stack: seq<Callback>, op: Op): seq<Callback>
  {
    match op
    case Register(_, callback) => [callback] + stack
    case Unregister(_) => if stack == [] then [] else stack[1..]
  }

  function NextList(list: seq<Registration>, op: Op): seq<Registration>
  {
    match op
    case Register(kind, callback) => [Registration(kind, callback)] + list
    case Unregister(kind) => RemoveAt(OfKind(kind), list)
  }

  /** Removing the first match of a type takes it off that type's list and no other. */
  lemma RemovedFrom(list: seq<Registration>, gone: U8, kind: U8)
    ensures var rest := Filter(OfKind(kind), list);
      Filter(OfKind(kind), RemoveAt(OfKind(gone), list)) == if gone == kind && rest != [] then rest[1..] else rest
  {
    var k := IndexOf(OfKind(gone), list);
    if k < |list| {
      assert list == list[..k] + ([list[k]] + list[k + 1..]);
      FilterConcat(OfKind(kind), list[..k], [list[k]] + list[k + 1..]);
      FilterConcat(OfKind(kind), [list[k]], list[k + 1..]);
      FilterConcat(OfKind(kind), list[..k], list[k + 1..]);
      if gone == kind {
        NoneMatch(OfKind(kind), list[..k]);
      }
    } else if gone == kind {
      NoneMatch(OfKind(kind), list);
    }
  }

  lemma {:induction false} NoneMatch<T>(p: T -> bool, s: seq<T>)
    requires forall i :: 0 <= i < |s| ==> !p(s[i])
    ensures Filter(p, s) == []
  {
    if s != [] {
      NoneMatch(p, s[1..]);
    }
  }

  lemma Pushed(list: seq<Registration>, r: Registration, kind: U8)
    ensures StackOf([r] + list, kind) == if r.kind == kind then [r.callback] + StackOf(list, kind) else StackOf(list, kind)
  {
    assert ([r] + list)[1..] == list;
  }

  lemma Popped(list: seq<Registration>, gone: U8, kind: U8)
    ensures var stack := StackOf(list, kind);
      StackOf(RemoveAt(OfKind(gone), list), kind) == if gone == kind && stack != [] then stack[1..] else stack
  {
    RemovedFrom(list, gone, kind);
  }

  /** The list is one stack per type: an operation changes the stack of its own type as a push
      or a pop, and no other. */
  lemma OneStackPerType(list: seq<Registration>, op: Op, kind: U8)
    ensures StackOf(NextList(list, op), kind) ==
      if op.kind == kind then PushPop(StackOf(list, kind), op) else StackOf(list, kind)
  {
    if op.Register? {
      Pushed(list, Registration(op.kind, op.callback), kind);
    } else {
      Popped(list, op.kind, kind);
    }
  }

  function RunList(ops: seq<Op>): seq<Registration>
    decreases |ops|
  {
    if ops == [] then [] else NextList(RunList(ops[..|ops| - 1]), ops[|ops| - 1])
  }

  /** A stack that hears only the operations of its own type. */
  function RunStack(ops: seq<Op>, kind: U8): seq<Callback>
    decreases |ops|
  {
    if ops == [] then []
    else
      var stack, op := RunStack(ops[..|ops| - 1], kind), ops[|ops| - 1];
      if op.kind == kind then PushPop(stack, op) else stack
  }

  /** On every run the list answers for each type as that type's own stack would. */
  lemma {:induction false} ListRefinesStacks(ops: seq<Op>, kind: U8)
    ensures StackOf(RunList(ops), kind) == RunStack(ops, kind)
    decreases |ops|
  {
    if ops != [] {
      ListRefinesStacks(ops[..|ops| - 1], kind);
      OneStackPerType(RunList(ops[..|ops| - 1]), ops[|ops| - 1], kind);
    }
  }

  lemma {:induction false} FirstMatch<T>(p: T -> bool, s: seq<T>)
    ensures var k := IndexOf(p, s);
      if k < |s| then Filter(p, s) != [] && Filter(p, s)[0] == s[k] else Filter(p, s) == []
  {
    if s != [] {
      FilterCons(p, s);
      if !p(s[0]) {
        FirstMatch(p, s[1..]);
      }
    }
  }

  /** The first match in the list is the top of the stack. */
  lemma FirstIsTop(list: seq<Registration>, kind: U8)
    ensures var k, stack := IndexOf(OfKind(kind), list), StackOf(list, kind);
      if k < |list| then stack != [] && list[k].callback == stack[0] else stack == []
  {
    FirstMatch(OfKind(kind), list);
  }

  /** Registering and unregistering a type again leaves every stack as it was. */
  lemma UnregisterUndoes(list: seq<Registration>, kind: U8, callback: Callback)
    ensures NextList(NextList(list, Register(kind, callback)), Unregister(kind)) == list
  {
  }

  // ---- the checked frame

  /** The byte step of the checksum; which polynomial it is does not matter here. */
  type Crc = (U16, U8) -> U16

  function Checksum(crc: Crc, init: U16, bytes: seq<U8>): U16
    decreases |bytes|
  {
    if bytes == [] then init else crc(Checksum(crc, init, bytes[..|bytes| - 1]), bytes[|bytes| - 1])
  }

  /** The checksum can be taken piece by piece. */
  lemma {:induction false} Streams(crc: Crc, init: U16, a: seq<U8>, b: seq<U8>)
    ensures Checksum(crc, Checksum(crc, init, a), b) == Checksum(crc, init, a + b)
    decreases |b|
  {
    if b == [] {
      assert a + b == a;
    } else {
      Streams(crc, init, a, b[..|b| - 1]);
      assert (a + b)[..|a + b| - 1] == a + b[..|b| - 1];
    }
  }

  const CRC_INIT: U16 := 0xFFFF
  const HEAD := 4

  datatype Message = Message(kind: U8, payload: seq<U8>)

  function Low(n: nat): U8
  {
    n % 0x100
  }

  function Word(low: nat, high: nat): nat
  {
    low + 0x100 * high
  }

  /** Type and length in front of the payload, the checksum still zero. */
  function Blank(m: Message): seq<U8>
  {
    [m.kind, Low(HEAD + |m.payload|), 0, 0] + m.payload
  }

  /** The frame as it is filled in: type, length in one byte, checksum in two (low byte first)
      over as many bytes as the length says. */
  function Build(crc: Crc, m: Message): (frame: seq<U8>)
    ensures |frame| == HEAD + |m.payload|
  {
    var len := Low(HEAD + |m.payload|);
    var sum := Checksum(crc, CRC_INIT, Blank(m)[..len]);
    [m.kind, len, Low(sum), Low(sum / 0x100)] + m.payload
  }

  /** What goes on the air: the type byte, and at most max - 1 bytes of data. */
  function OnAir(max: nat, kind: U8, data: seq<U8>): seq<U8>
    requires max > 0
  {
    [kind] + if |data| >= max then data[..max - 1] else data
  }

  /** zero_prov_data_parse and the payload its callers go on to read. */
  function Parse(crc: Crc, data: seq<U8>): Option<Message>
  {
    if |data| < HEAD then None
    else
      var sum := Checksum(crc, CRC_INIT, data[..2]);
      var sum := Checksum(crc, sum, [0, 0]);
      var sum := Checksum(crc, sum, data[HEAD..]);
      if sum == Word(data[2], data[3]) then Some(Message(data[0], data[HEAD..])) else None
  }

  /** The frame that leaves the sender: built, and sent with the length its length byte
      gives. */
  function Sent(crc: Crc, max: nat, kind: U8, m: Message): (frame: seq<U8>)
    requires max > 0
    ensures frame != [] && frame[0] == kind
  {
    OnAir(max, kind, Build(crc, m)[..Low(HEAD + |m.payload|)])
  }

  /** What the receiver parses behind the type byte. */
  function Arrives(crc: Crc, max: nat, kind: U8, m: Message): Option<Message>
    requires max > 0
  {
    Parse(crc, Sent(crc, max, kind, m)[1..])
  }

  lemma BytesOf(sum: U16)
    ensures Word(Low(sum), Low(sum / 0x100)) == sum
  {
  }

  lemma CutFrame(crc: Crc, m: Message, n: nat)
    requires HEAD <= n <= HEAD + |m.payload|
    ensures var len := Low(HEAD + |m.payload|); var sum := Checksum(crc, CRC_INIT, Blank(m)[..len]);
      var data := Build(crc, m)[..n];
      && data[0] == m.kind && data[..2] == [m.kind, len] && data[HEAD..] == m.payload[..n - HEAD]
      && Word(data[2], data[3]) == sum
    ensures Blank(m)[..n] == [m.kind, Low(HEAD + |m.payload|)] + [0, 0] + m.payload[..n - HEAD]
  {
    BytesOf(Checksum(crc, CRC_INIT, Blank(m)[..Low(HEAD + |m.payload|)]));
  }

  /** The frame of a message that fits, as it lies in memory: type, total length, and a checksum,
      low byte first, that starts from 0xFFFF and takes the two bytes it stands in as zero. */
  lemma FrameLayout(crc: Crc, m: Message)
    requires HEAD + |m.payload| <= 0xFF
    ensures var f := Build(crc, m);
      && f[0] == m.kind && f[1] == |f| && f[4..] == m.payload
      && var sum: nat := Checksum(crc, 0xFFFF, f[..2] + [0, 0] + f[4..]);
         f[2] == sum % 0x100 && f[3] == sum / 0x100
  {
    CutFrame(crc, m, HEAD + |m.payload|);
    var f := Build(crc, m);
    assert f[..2] + [0, 0] + f[4..] == Blank(m)[..HEAD + |m.payload|];
  }

  /** The three-segment check of the first n bytes of a frame succeeds exactly when they have
      the checksum of all the bytes that were summed. */
  lemma ParsesCut(crc: Crc, m: Message, n: nat)
    requires HEAD <= n <= Low(HEAD + |m.payload|)
    ensures var summed := Checksum(crc, CRC_INIT, Blank(m)[..Low(HEAD + |m.payload|)]);
      Parse(crc, Build(crc, m)[..n]) ==
        if Checksum(crc, CRC_INIT, Blank(m)[..n]) == summed then Some(Message(m.kind, m.payload[..n - HEAD])) else None
  {
    var head, body := [m.kind, Low(HEAD + |m.payload|)], m.payload[..n - HEAD];
    CutFrame(crc, m, n);
    Streams(crc, CRC_INIT, head, [0, 0]);
    Streams(crc, CRC_INIT, head + [0, 0], body);
  }

  /** How many bytes of the frame reach the parser. */
  function Cut(max: nat, m: Message): (n: nat)
    requires max > 0
    ensures n <= Low(HEAD + |m.payload|)
  {
    var len := Low(HEAD + |m.payload|);
    if len < max then len else max - 1
  }

  /** The first n bytes have the checksum of all the bytes that were summed. */
  predicate KeepsSum(crc: Crc, m: Message, n: nat)
    requires n <= Low(HEAD + |m.payload|)
  {
    Checksum(crc, CRC_INIT, Blank(m)[..n]) == Checksum(crc, CRC_INIT, Blank(m)[..Low(HEAD + |m.payload|)])
  }

  function Outcome(m: Message, n: nat, kept: bool): Option<Message>
  {
    if HEAD <= n <= HEAD + |m.payload| && kept then Some(Message(m.kind, m.payload[..n - HEAD])) else None
  }

  /** What arrives, for every payload length. A frame whose length byte is below the header's
      length is refused; one that fits the limit arrives with its own type and as much payload
      as the length byte covers; one that was cut at the limit arrives, cut, just when the cut
      leaves the checksum as it was. */
  lemma WhatArrives(crc: Crc, max: nat, kind: U8, m: Message)
    requires max > HEAD
    ensures Arrives(crc, max, kind, m) == Outcome(m, Cut(max, m), KeepsSum(crc, m, Cut(max, m)))
  {
    var cut := Cut(max, m);
    var data := Build(crc, m)[..Low(HEAD + |m.payload|)];
    assert OnAir(max, kind, data)[1..] == data[..cut] == Build(crc, m)[..cut];
    if cut >= HEAD {
      ParsesCut(crc, m, cut);
    }
  }

  lemma OutcomeIff(max: nat, m: Message, kept: bool)
    requires max > HEAD && (Cut(max, m) == Low(HEAD + |m.payload|) ==> kept)
    ensures Outcome(m, Cut(max, m), kept) == Some(m) <==> HEAD + |m.payload| < max && HEAD + |m.payload| <= 0xFF
  {
    assert m.payload[..|m.payload|] == m.payload;
    var n := Cut(max, m);
    assert HEAD <= n <= HEAD + |m.payload| ==> |m.payload[..n - HEAD]| == n - HEAD;
  }

  /** A message arrives as it was sent exactly when header and payload fit both the length
      byte and the ESP-NOW payload limit. */
  lemma ArrivesIff(crc: Crc, max: nat, kind: U8, m: Message)
    requires max > HEAD
    ensures Arrives(crc, max, kind, m) == Some(m) <==> HEAD + |m.payload| < max && HEAD + |m.payload| <= 0xFF
  {
    WhatArrives(crc, max, kind, m);
    OutcomeIff(max, m, KeepsSum(crc, m, Cut(max, m)));
  }

  /** Whom a received frame goes to, and with which data. */
  function Dispatched(list: seq<Registration>, frame: seq<U8>): (Option<Callback>, seq<U8>)
    requires frame != []
  {
    var k := IndexOf(OfKind(frame[0]), list);
    (if k < |list| then Some(list[k].callback) else None, frame[1..])
  }

  /** From sender to receiver: after any run of registrations the frame is handed to the latest
      callback still registered for its type, and what that callback parses is the message,
      exactly when the message fits. */
  lemma RoundTrip(ops: seq<Op>, crc: Crc, max: nat, kind: U8, m: Message)
    requires max > HEAD
    ensures var (called, data) := Dispatched(RunList(ops), Sent(crc, max, kind, m));
      var stack := RunStack(ops, kind);
      && called == (if stack == [] then None else Some(stack[0]))
      && (Parse(crc, data) == Some(m) <==> HEAD + |m.payload| < max && HEAD + |m.payload| <= 0xFF)
  {
    FirstIsTop(RunList(ops), kind);
    ListRefinesStacks(ops, kind);
    ArrivesIff(crc, max, kind, m);
  }

  // ---- the module

  class Radio {
    const max: nat
    const buffer: array<U8>
    const callbacks: List<Registration>
    var ready: bool

    ghost predicate Valid()
      reads this, callbacks, callbacks.repr
    {
      callbacks.Valid() && buffer.Length == max > 0
    }

    constructor (max: nat)
      requires max > 0
      ensures Valid() && this.max == max && !ready && callbacks.values == []
      ensures fresh(callbacks) && fresh(callbacks.repr) && fresh(buffer)
    {
      this.max := max;
      buffer := new U8[max](_ => 0);
      callbacks := new List();
      ready := false;
    }

    method Init() returns (ret: RadioRet)
      modifies `ready
      ensures ready && ret == if old(ready) then Fail else Ok
    {
      if ready {
        return Fail;
      }
      ready := true;
      return Ok;
    }

    method RegisterCallback(kind: U8, callback: Callback) returns (ret: RadioRet)
      requires Valid()
      modifies callbacks
      ensures Valid() && fresh(callbacks.repr - old(callbacks.repr))
      ensures ret == if ready then Ok else InvalidState
      ensures callbacks.values == if ready then NextList(old(callbacks.values), Register(kind, callback)) else old(callbacks.values)
    {
      if !ready {
        return InvalidState;
      }
      callbacks.PushFront(Registration(kind, callback));
      return Ok;
    }

    method UnregisterCallback(kind: U8) returns (ret: RadioRet)
      requires Valid()
      modifies callbacks, callbacks.repr
      ensures Valid() && callbacks.repr == old(callbacks.repr)
      ensures ret == if !ready then InvalidState else if StackOf(old(callbacks.values), kind) == [] then NotFound else Ok
      ensures callbacks.values == if ready then NextList(old(callbacks.values), Unregister(kind)) else old(callbacks.values)
    {
      if !ready {
        return InvalidState;
      }
      FirstIsTop(callbacks.values, kind);
      var found := callbacks.RemoveFirst(OfKind(kind));
      return if found.Some? then Ok else NotFound;
    }

    /** A received frame goes, without its type byte, to the latest callback still registered
        for that type. */
    method Dispatch(frame: seq<U8>) returns (called: Option<Callback>, data: seq<U8>)
      requires Valid() && frame != []
      ensures (called, data) == Dispatched(callbacks.values, frame)
      ensures var stack := StackOf(callbacks.values, frame[0]);
        called == if stack == [] then None else Some(stack[0])
    {
      FirstIsTop(callbacks.values, frame[0]);
      var found := callbacks.FindFirst(OfKind(frame[0]));
      called := if found.Some? then Some(found.value.callback) else None;
      data := frame[1..];
    }

    method Send(kind: U8, data: seq<U8>) returns (sent: Option<seq<U8>>)
      requires Valid()
      modifies buffer
      ensures Valid() && sent == if ready then Some(OnAir(max, kind, data)) else None
    {
      if !ready {
        return None;
      }
      var len := if |data| >= max then max - 1 else |data|;
      buffer[0] := kind;
      var i := 0;
      while i < len
        invariant 0 <= i <= len && buffer[0] == kind
        invariant buffer[1..i + 1] == data[..i]
      {
        buffer[i + 1] := data[i];
        i := i + 1;
      }
      assert buffer[..len + 1] == [kind] + data[..len];
      assert data[..|data|] == data;
      return Some(buffer[..len + 1]);
    }
  }
}
