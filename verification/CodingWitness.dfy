/** Clients' messages can be coded as the relay's, and a transfer can begin: the joint machine is not empty. */
module CodingWitness {
  import opened Bytes
  import opened Aead
  import opened CodecWitness
  import opened RelayedTransfer
  import Rooms
  import RoomPairing
  import RoomLink
  import RoomReach
  import Shutdown
  import ReceivePath

  /** Bytes as characters, and back. */
  function Chars(b: seq<byte>): (s: string)
    ensures |s| == |b|
  {
    seq(|b|, i requires 0 <= i < |b| => b[i] as char)
  }

  function Codes(s: string): (b: seq<byte>)
    ensures |b| == |s|
  {
    seq(|s|, i requires 0 <= i < |s| => (s[i] as int) % 256)
  }

  lemma CharsBack(b: seq<byte>)
    ensures Codes(Chars(b)) == b
  {
  }

  function WriteBytes(b: seq<byte>): seq<byte> {
    Unary(|b|) + b
  }

  function ReadBytes(b: seq<byte>): (seq<byte>, seq<byte>) {
    var (n, rest) := ReadNat(b);
    if n <= |rest| then (rest[..n], rest[n..]) else ([], [])
  }

  lemma ReadWrittenBytes(b: seq<byte>, rest: seq<byte>)
    ensures ReadBytes(WriteBytes(b) + rest) == (b, rest)
  {
    ReadUnary(|b|, b + rest);
    assert WriteBytes(b) + rest == Unary(|b|) + (b + rest);
  }

  function WriteFrame(f: Frame): seq<byte> {
    match f
    case Sealed(key, nonce, aad, plain) =>
      [0] + (WriteBytes(key) + (WriteBytes(nonce) + (WriteBytes(aad) + (WriteBytes(plain) + []))))
    case Junk(bytes) => [1] + (WriteBytes(bytes) + [])
  }

  function ReadFrame(b: seq<byte>): Frame {
    if b == [] then Junk([])
    else if b[0] == 0 then
      var (key, b1) := ReadBytes(b[1..]);
      var (nonce, b2) := ReadBytes(b1);
      var (aad, b3) := ReadBytes(b2);
      var (plain, _) := ReadBytes(b3);
      Sealed(key, nonce, aad, plain)
    else
      var (bytes, _) := ReadBytes(b[1..]);
      Junk(bytes)
  }

  lemma ReadWrittenFrame(f: Frame)
    ensures ReadFrame(WriteFrame(f)) == f
  {
    hide ReadBytes, WriteBytes;
    match f
    case Sealed(key, nonce, aad, plain) =>
      ReadWrittenBytes(plain, []);
      ReadWrittenBytes(aad, WriteBytes(plain) + []);
      ReadWrittenBytes(nonce, WriteBytes(aad) + (WriteBytes(plain) + []));
      ReadWrittenBytes(key, WriteBytes(nonce) + (WriteBytes(aad) + (WriteBytes(plain) + [])));
      Tail(0, WriteBytes(key) + (WriteBytes(nonce) + (WriteBytes(aad) + (WriteBytes(plain) + []))));
    case Junk(bytes) =>
      ReadWrittenBytes(bytes, []);
      Tail(1, WriteBytes(bytes) + []);
  }

  lemma Tail(tag: byte, rest: seq<byte>)
    ensures ([tag] + rest)[0] == tag && ([tag] + rest)[1..] == rest
  {
  }

  function WriteMsg(m: Msg): string {
    match m
    case Data(frame) => Chars([0] + WriteFrame(frame))
    case TransferDone => Chars([1])
    case TransferAck => Chars([2])
  }

  function ReadMsg(s: string): Msg {
    var b := Codes(s);
    if b == [] || b[0] == 1 then Shutdown.TransferDone
    else if b[0] == 0 then Shutdown.Data(ReadFrame(b[1..]))
    else Shutdown.TransferAck
  }

  const CODING := Coding(WriteMsg, ReadMsg)

  /** There is a sound coding. */
  lemma CodingSound()
    ensures CODING.Sound()
  {
    forall m: Msg ensures ReadMsg(WriteMsg(m)) == m {
      ReadWrittenMsg(m);
    }
  }

  lemma ReadWrittenMsg(m: Msg)
    ensures ReadMsg(WriteMsg(m)) == m
  {
    hide WriteFrame, ReadFrame, Chars, Codes;
    match m
    case Data(frame) =>
      CharsBack([0] + WriteFrame(frame));
      Tail(0, WriteFrame(frame));
      ReadWrittenFrame(frame);
    case TransferDone => CharsBack([1]);
    case TransferAck => CharsBack([2]);
  }

  /** Two clients that met can begin a transfer, in either direction. */
  lemma TransferCanBegin(senderFirst: bool) returns (p: Place, j: Joint)
    ensures p.senderFirst == senderFirst && Begins(p, j) && Reached(j.relay) && Lives(j.relay, p.r)
  {
    var steps, states := RoomReach.Meet();
    p := Place(0, 0, 1, senderFirst);
    var s := RoomReach.MET;
    j := Joint(
      s, Client([], |Inbox(s, p.From())|), Client([], |Inbox(s, p.To())|), 0, false, false, ReceivePath.FRESH);
    hide Rooms.IsRun, Inbox;
    assert Rooms.IsRun(1, steps, states) && states[|steps|] == s;
  }
}
