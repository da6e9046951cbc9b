/** The connection of one app: RPC traffic and notifications share its write channel, and the RPC
    server reads its calls from a channel of messages. A `char` is one byte here. */
module RpcConn {

  type Message = seq<char>

  const OP_RPC_CALL: char := 'r'

  /** The identifiers of the notifications. */
  predicate IsNotification(m: Message) { m == "s" || m == "u" || m == "x" || m == "a" || m == "b" }

  function Concat(parts: seq<Message>): Message { if parts == [] then [] else parts[0] + Concat(parts[1..]) }

  // --- what the app does with the messages it receives ---------------------------------------------

  predicate IsRpc(m: Message) { m != [] && m[0] == OP_RPC_CALL }

  /** The RPC byte stream: messages tagged as RPC, without the tag. */
  function RpcBytes(messages: seq<Message>): Message {
    if messages == [] then []
    else (if IsRpc(messages[0]) then messages[0][1..] else []) + RpcBytes(messages[1..])
  }

  function Notifications(messages: seq<Message>): seq<Message> {
    if messages == [] then []
    else (if IsRpc(messages[0]) then [] else [messages[0]]) + Notifications(messages[1..])
  }

  lemma {:induction false} RpcBytesTogether(a: seq<Message>, b: seq<Message>)
    ensures RpcBytes(a + b) == RpcBytes(a) + RpcBytes(b)
    ensures Notifications(a + b) == Notifications(a) + Notifications(b)
  {
    if a == [] {
      assert a + b == b;
    } else {
      assert (a + b)[0] == a[0] && (a + b)[1..] == a[1..] + b;
      RpcBytesTogether(a[1..], b);
    }
  }

  lemma OneMessage(m: Message)
    ensures RpcBytes([m]) == if m != [] && m[0] == 'r' then m[1..] else []
    ensures Notifications([m]) == if m != [] && m[0] == 'r' then [] else [m]
  {
    assert [m][1..] == [];
  }

  // --- what the RPC server gets from its reads --------------------------------------------------------

  function Min(a: nat, b: nat): nat { if a <= b then a else b }

  /** The bytes that reads into buffers of these sizes deliver. */
  function Delivered(messages: seq<Message>, sizes: seq<nat>): Message
    requires |messages| == |sizes|
  {
    if messages == [] then []
    else messages[0][..Min(|messages[0]|, sizes[0])] + Delivered(messages[1..], sizes[1..])
  }

  lemma {:induction false} DeliveredLength(messages: seq<Message>, sizes: seq<nat>)
    requires |messages| == |sizes|
    ensures |Delivered(messages, sizes)| <= |Concat(messages)|
    ensures (exists i :: 0 <= i < |messages| && |messages[i]| > sizes[i]) ==> |Delivered(messages, sizes)| < |Concat(messages)|
  {
    if messages != [] {
      DeliveredLength(messages[1..], sizes[1..]);
      if i :| 0 <= i < |messages| && |messages[i]| > sizes[i] {
        if i > 0 { assert messages[1..][i - 1] == messages[i] && sizes[1..][i - 1] == sizes[i]; }
      }
    }
  }

  lemma {:induction false} DeliveredWhole(messages: seq<Message>, sizes: seq<nat>)
    requires |messages| == |sizes| && forall i :: 0 <= i < |messages| ==> |messages[i]| <= sizes[i]
    ensures Delivered(messages, sizes) == Concat(messages)
  {
    if messages != [] {
      assert messages[0][..|messages[0]|] == messages[0];
      DeliveredWhole(messages[1..], sizes[1..]);
    }
  }

  /** Main result: the reads deliver the concatenation of all messages if and only if every message
      fits the buffer it is read into. */
  lemma ReadsAreLosslessIff(messages: seq<Message>, sizes: seq<nat>)
    requires |messages| == |sizes|
    ensures Delivered(messages, sizes) == Concat(messages)
        <==> forall i :: 0 <= i < |messages| ==> |messages[i]| <= sizes[i]
  {
    DeliveredLength(messages, sizes);
    if forall i :: 0 <= i < |messages| ==> |messages[i]| <= sizes[i] { DeliveredWhole(messages, sizes); }
  }

  lemma {:induction false} DeliveredNext(messages: seq<Message>, sizes: seq<nat>, m: Message, size: nat)
    requires |messages| == |sizes|
    ensures Delivered(messages + [m], sizes + [size]) == Delivered(messages, sizes) + m[..Min(|m|, size)]
  {
    var ms, ss := messages + [m], sizes + [size];
    if messages == [] {
      assert ms[1..] == [] && ss[1..] == [];
    } else {
      assert ms[1..] == messages[1..] + [m] && ss[1..] == sizes[1..] + [size];
      DeliveredNext(messages[1..], sizes[1..], m, size);
    }
  }

  // --- the connection ----------------------------------------------------------------------------------

  class RpcConn {
    /** Messages the read loop has sent and Read has not yet taken. */
    var readChan: seq<Message>
    /** Everything sent on the write channel so far, in order. */
    var writeChan: seq<Message>

    ghost var rpcWritten: Message            // the bytes the RPC server wrote
    ghost var notified: seq<Message>         // the notifications sent
    ghost var taken: seq<Message>            // the messages Read took
    ghost var sizes: seq<nat>                // and the buffers it took them into
    ghost var delivered: Message             // the bytes it delivered

    /** The two kinds of traffic can be told apart, and reads deliver what fits. */
    ghost predicate Valid()
      reads this
    {
      && RpcBytes(writeChan) == rpcWritten
      && Notifications(writeChan) == notified
      && |taken| == |sizes| && delivered == Delivered(taken, sizes)
    }

    constructor ()
      ensures Valid() && readChan == [] && writeChan == [] && rpcWritten == [] && notified == [] && taken == [] && delivered == []
    {
      readChan, writeChan := [], [];
      rpcWritten, notified, taken, sizes, delivered := [], [], [], [], [];
    }

    /** Read: blocks until there is a message; copies as much of it as the buffer holds. */
    method Read(p: array<char>) returns (n: nat)
      requires Valid() && readChan != []
      modifies this, p
      ensures Valid() && readChan == old(readChan[1..]) && writeChan == old(writeChan)
      ensures taken == old(taken) + [old(readChan[0])] && sizes == old(sizes) + [p.Length]
      ensures n == Min(|old(readChan[0])|, p.Length)
      ensures p[..] == old(readChan[0])[..n] + old(p[n..])
      ensures delivered == old(delivered) + p[..n] && rpcWritten == old(rpcWritten) && notified == old(notified)
    {
      var message := readChan[0];
      readChan := readChan[1..];
      n := Min(|message|, p.Length);
      forall i | 0 <= i < n {
        p[i] := message[i];
      }
      DeliveredNext(taken, sizes, message, p.Length);
      assert p[..n] == message[..n];
      assert p[..] == p[..n] + p[n..] && p[n..] == old(p[n..]);
      taken, sizes, delivered := taken + [message], sizes + [p.Length], delivered + message[..n];
    }

    /** The websocket's read loop hands over a message. */
    method Receive(message: Message)
      requires Valid()
      modifies this`readChan
      ensures Valid() && readChan == old(readChan) + [message]
    {
      readChan := readChan + [message];
    }

    /** Write: one tagged message. */
    method Write(p: Message) returns (n: nat)
      requires Valid()
      modifies this`writeChan, this`rpcWritten
      ensures Valid() && n == |p|
      ensures rpcWritten == old(rpcWritten) + p
      ensures writeChan == old(writeChan) + [['r'] + p]
    {
      var message := [OP_RPC_CALL] + p;
      OneMessage(message);
      RpcBytesTogether(writeChan, [message]);
      writeChan := writeChan + [message];
      rpcWritten := rpcWritten + p;
      return |p|;
    }

    /** The event listener sends a notification on the same channel. */
    method Notify(identifier: Message)
      requires Valid() && IsNotification(identifier)
      modifies this`writeChan, this`notified
      ensures Valid() && writeChan == old(writeChan) + [identifier] && notified == old(notified) + [identifier]
    {
      OneMessage(identifier);
      RpcBytesTogether(writeChan, [identifier]);
      writeChan := writeChan + [identifier];
      notified := notified + [identifier];
    }
  }

  // --- every interleaving --------------------------------------------------------------------------------

  datatype Send = Rpc(bytes: Message) | Event(identifier: Message)

  function OnWire(send: Send): Message {
    match send
    case Rpc(bytes) => [OP_RPC_CALL] + bytes
    case Event(identifier) => identifier
  }

  function Wire(sends: seq<Send>): seq<Message> {
    if sends == [] then []
    else [OnWire(sends[0])] + Wire(sends[1..])
  }

  function RpcOf(sends: seq<Send>): seq<Message> {
    if sends == [] then [] else (if sends[0].Rpc? then [sends[0].bytes] else []) + RpcOf(sends[1..])
  }

  function EventsOf(sends: seq<Send>): seq<Message> {
    if sends == [] then [] else (if sends[0].Event? then [sends[0].identifier] else []) + EventsOf(sends[1..])
  }

  lemma ConcatFirst(all: seq<Message>, first: seq<Message>, rest: seq<Message>)
    requires all == first + rest && |first| <= 1
    ensures Concat(all) == (if first == [] then [] else first[0]) + Concat(rest)
  {
    if first == [] { assert all == rest; } else { assert all[1..] == rest; }
  }

  /** Main result: however RPC writes and notifications interleave, the app gets back the RPC byte
      stream and the notifications, each in order and complete. */
  lemma {:induction false} Demultiplexes(sends: seq<Send>)
    requires forall s :: s in sends && s.Event? ==> IsNotification(s.identifier)
    ensures RpcBytes(Wire(sends)) == Concat(RpcOf(sends))
    ensures Notifications(Wire(sends)) == EventsOf(sends)
  {
    if sends != [] {
      assert sends[0] in sends && forall s :: s in sends[1..] ==> s in sends;
      Demultiplexes(sends[1..]);
      OneMessage(OnWire(sends[0]));
      RpcBytesTogether([OnWire(sends[0])], Wire(sends[1..]));
      ConcatFirst(RpcOf(sends), if sends[0].Rpc? then [sends[0].bytes] else [], RpcOf(sends[1..]));
    }
  }
}
