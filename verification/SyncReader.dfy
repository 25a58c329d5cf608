/** The synchronous client's reads: one byte stream returned through three different calls. */
module SyncReader {

  // ---- the socket, seen from a call

  /** How an operation on the socket ended. */
  datatype Ending = Done | TimedOut | Broken

  /** What one operation did: the bytes it took off the stream, in order, and how it ended. */
  datatype Io = Io(bytes: string, ending: Ending)

  // ---- searching for a delimiter

  predicate MatchAt(s: string, d: string, i: nat) {
    i + |d| <= |s| && s[i..i + |d|] == d
  }

  /** The end of the first occurrence of `d` at or after position `i`, or -1. */
  function FirstMatch(s: string, d: string, i: nat): (n: int)
    requires i <= |s|
    ensures n == -1 <==> forall k :: i <= k ==> !MatchAt(s, d, k)
    ensures n != -1 ==> i + |d| <= n <= |s| && MatchAt(s, d, n - |d|)
    ensures n != -1 ==> forall k :: i <= k < n - |d| ==> !MatchAt(s, d, k)
    decreases |s| - i
  {
    if MatchAt(s, d, i) then i + |d|
    else if i == |s| then -1
    else FirstMatch(s, d, i + 1)
  }

  // ---- the reader's state and calls

  datatype Reader = Reader(open: bool, buffer: string)

  datatype Reply = Bytes(text: string) | TimeOut | NetworkError | NotConnected

  datatype Call = Read(size: nat, io: Io) | ReadUntil(delimiter: string, io: Io) | ReadSome(io: Io)

  /** Whether the call goes to the socket at all. */
  predicate Asks(r: Reader, c: Call) {
    r.open &&
    match c
    case Read(size, _) => |r.buffer| < size
    case ReadUntil(_, _) => true
    case ReadSome(_) => r.buffer == ""
  }

  /** The contract of the socket operation behind a call: a sized read stops at its size, a
      delimited read succeeds exactly when the delimiter is there, and takes nothing when it
      was there already, and any successful read brings something. */
  predicate Serves(r: Reader, c: Call) {
    Asks(r, c) ==>
      match c
      case Read(size, io) =>
        && |r.buffer + io.bytes| <= size
        && (io.ending.Done? <==> |r.buffer + io.bytes| == size)
      case ReadUntil(d, io) =>
        && (io.ending.Done? <==> FirstMatch(r.buffer + io.bytes, d, 0) != -1)
        && (FirstMatch(r.buffer, d, 0) != -1 ==> io.bytes == "")
      case ReadSome(io) =>
        io.ending.Done? ==> io.bytes != ""
  }

  /** The bytes the call takes off the stream. */
  function Taken(r: Reader, c: Call): string {
    if Asks(r, c) then c.io.bytes else ""
  }

  /** `throw_on_read_error` for an operation that did not end well. */
  function Failure(e: Ending): Reply {
    if e.TimedOut? then TimeOut else NetworkError
  }

  function Answer(r: Reader, c: Call): Reply
    requires Serves(r, c)
  {
    var all := r.buffer + Taken(r, c);
    if !r.open then NotConnected
    else match c
      case Read(size, io) =>
        if Asks(r, c) && !io.ending.Done? then Failure(io.ending) else Bytes(all[..size])
      case ReadUntil(d, io) =>
        if !io.ending.Done? then Failure(io.ending) else Bytes(all[..FirstMatch(all, d, 0)])
      case ReadSome(io) =>
        if Asks(r, c) && io.bytes == "" && !io.ending.Done? then Failure(io.ending) else Bytes(all)
  }

  /** A time-out keeps the connection; any other failure that is reported drops it. */
  function After(r: Reader, c: Call): Reader
    requires Serves(r, c)
  {
    var all := r.buffer + Taken(r, c);
    match Answer(r, c)
    case Bytes(text) => Reader(true, all[|text|..])
    case NetworkError => Reader(false, all)
    case _ => Reader(r.open, all)
  }

  // ---- what the calls promise

  function Text(reply: Reply): string {
    if reply.Bytes? then reply.text else ""
  }

  /** One call hands over a prefix of what was buffered or taken, and keeps the rest. */
  lemma CallConserves(r: Reader, c: Call)
    requires Serves(r, c)
    ensures Text(Answer(r, c)) + After(r, c).buffer == r.buffer + Taken(r, c)
  {}

  /** A sized read on an open connection succeeds exactly when the buffer holds that many bytes or the socket brings the
      rest, and then returns that many; what the buffer holds already is returned whatever the socket would do. */
  lemma ReadIsExact(r: Reader, size: nat, io: Io)
    requires Serves(r, Read(size, io))
    ensures var a := Answer(r, Read(size, io));
      && (a.Bytes? <==> r.open && (|r.buffer| >= size || |r.buffer + io.bytes| == size))
      && (a.Bytes? ==> |a.text| == size)
    ensures r.open && |r.buffer| >= size ==>
      Answer(r, Read(size, io)) == Bytes(r.buffer[..size]) && After(r, Read(size, io)) == Reader(true, r.buffer[size..])
  {}

  /** A delimited read on an open connection succeeds exactly when the delimiter is in what is buffered and brought, and
      returns up to and including the first one: the result ends in it, and has no other occurrence. */
  lemma ReadUntilStopsAtFirst(r: Reader, d: string, io: Io)
    requires Serves(r, ReadUntil(d, io))
    ensures var a := Answer(r, ReadUntil(d, io));
      a.Bytes? <==> r.open && exists k: nat :: MatchAt(r.buffer + io.bytes, d, k)
    ensures var a := Answer(r, ReadUntil(d, io)); a.Bytes? ==>
      && MatchAt(a.text, d, |a.text| - |d|)
      && forall k :: 0 <= k < |a.text| - |d| ==> !MatchAt(a.text, d, k)
  {
    hide MatchAt, FirstMatch;
    var a := Answer(r, ReadUntil(d, io));
    if a.Bytes? {
      var all := r.buffer + io.bytes;
      var n := FirstMatch(all, d, 0);
      MatchInPrefix(all, d, n);
    }
  }

  lemma MatchInPrefix(s: string, d: string, n: nat)
    requires n <= |s|
    ensures forall k: nat :: k + |d| <= n ==> (MatchAt(s[..n], d, k) <==> MatchAt(s, d, k))
  {
    forall k: nat | k + |d| <= n
      ensures MatchAt(s[..n], d, k) <==> MatchAt(s, d, k)
    {
      assert s[..n][k..k + |d|] == s[k..k + |d|];
    }
  }

  /** `read_some` returns everything that is buffered, or failing that everything the socket brings, and leaves nothing
      behind; on an open connection it fails only with nothing to return. */
  lemma ReadSomeReturnsAll(r: Reader, io: Io)
    requires Serves(r, ReadSome(io))
    ensures var a := Answer(r, ReadSome(io));
      && (a.Bytes? <==> r.open && (r.buffer != "" || io.bytes != ""))
      && (a.Bytes? ==>
            && a.text == (if r.buffer != "" then r.buffer else io.bytes)
            && After(r, ReadSome(io)) == Reader(true, ""))
  {}

  /** The error a call reports is the socket's own, and `NotConnected` on a closed connection and nowhere else. */
  lemma FailureIsReported(r: Reader, c: Call)
    requires Serves(r, c)
    ensures Answer(r, c).NotConnected? <==> !r.open
    ensures Answer(r, c).TimeOut? ==> c.io.ending.TimedOut?
    ensures Answer(r, c).NetworkError? ==> c.io.ending.Broken?
    ensures r.open && c.io.ending.Done? ==> Answer(r, c).Bytes?
  {}

  /** A call that fails loses nothing: every byte that arrived is buffered, and the
      connection is dropped only for a network error. */
  lemma FailureKeepsBytes(r: Reader, c: Call)
    requires Serves(r, c) && !Answer(r, c).Bytes?
    ensures After(r, c).buffer == r.buffer + Taken(r, c)
    ensures After(r, c).open <==> r.open && Answer(r, c).TimeOut?
  {}

  // ---- whole runs

  function Outcome(r: Reader, calls: seq<Call>): Reader
    requires Served(r, calls)
    decreases |calls|
  {
    if calls == [] then r else Outcome(After(r, calls[0]), calls[1..])
  }

  predicate Served(r: Reader, calls: seq<Call>)
    decreases |calls|
  {
    calls == [] || (Serves(r, calls[0]) && Served(After(r, calls[0]), calls[1..]))
  }

  function AllTaken(r: Reader, calls: seq<Call>): string
    requires Served(r, calls)
    decreases |calls|
  {
    if calls == [] then "" else Taken(r, calls[0]) + AllTaken(After(r, calls[0]), calls[1..])
  }

  function AllReturned(r: Reader, calls: seq<Call>): string
    requires Served(r, calls)
    decreases |calls|
  {
    if calls == [] then "" else Text(Answer(r, calls[0])) + AllReturned(After(r, calls[0]), calls[1..])
  }

  /** Within a connection, whatever the mix of calls and wherever they time out, the strings
      returned and what is still buffered are the bytes taken off the socket, in order. */
  lemma {:induction false} StreamConserved(r: Reader, calls: seq<Call>)
    requires Served(r, calls)
    ensures AllReturned(r, calls) + Outcome(r, calls).buffer == r.buffer + AllTaken(r, calls)
    decreases |calls|
  {
    if calls != [] {
      hide Answer, After, Taken;
      var r', c := After(r, calls[0]), calls[0];
      CallConserves(r, c);
      StreamConserved(r', calls[1..]);
      Regroup(Text(Answer(r, c)), AllReturned(r', calls[1..]), Outcome(r', calls[1..]).buffer,
              r.buffer, Taken(r, c), AllTaken(r', calls[1..]), r'.buffer);
    }
  }

  lemma Regroup(t: string, b: string, o: string, buffer: string, taken: string, rest: string, mid: string)
    requires t + mid == buffer + taken && b + o == mid + rest
    ensures (t + b) + o == buffer + (taken + rest)
  {
    assert (t + b) + o == t + (b + o);
    assert t + (mid + rest) == (t + mid) + rest;
    assert (buffer + taken) + rest == buffer + (taken + rest);
  }

  // ---- the client

  class Client {
    var open: bool
    var readBuffer: string

    function State(): Reader
      reads this
    {
      Reader(open, readBuffer)
    }

    constructor ()
      ensures State() == Reader(false, "")
    {
      open, readBuffer := false, "";
    }

    /** Whatever is left of an earlier connection is dropped before the new one is tried. */
    method Connect(succeeds: bool, openAfterFailure: bool) returns (ok: bool)
      modifies this
      ensures old(open) ==> !ok && State() == old(State())
      ensures !old(open) ==> ok == succeeds && State() == Reader(succeeds || openAfterFailure, "")
    {
      if open {
        return false;
      }
      readBuffer := "";
      open := succeeds || openAfterFailure;
      ok := succeeds;
    }

    method Disconnect()
      modifies this`open
      ensures !open
    {
      if !open {
        return;
      }
      open := false;
    }

    method ThrowOnReadError(ending: Ending) returns (reply: Reply)
      requires !ending.Done? && open
      modifies this`open
      ensures reply == Failure(ending) && open == ending.TimedOut?
    {
      if !ending.TimedOut? {
        Disconnect();
      }
      reply := if ending.TimedOut? then TimeOut else NetworkError;
    }

    method Read(size: nat, io: Io) returns (reply: Reply)
      requires Serves(State(), Call.Read(size, io))
      modifies this
      ensures reply == Answer(old(State()), Call.Read(size, io))
      ensures State() == After(old(State()), Call.Read(size, io))
    {
      if !open {
        return NotConnected;
      }
      if |readBuffer| < size {
        readBuffer := readBuffer + io.bytes;
        if !io.ending.Done? {
          reply := ThrowOnReadError(io.ending);
          return;
        }
      }
      reply := Bytes(readBuffer[..size]);
      readBuffer := readBuffer[size..];
    }

    method ReadUntil(delimiter: string, io: Io) returns (reply: Reply)
      requires Serves(State(), Call.ReadUntil(delimiter, io))
      modifies this
      ensures reply == Answer(old(State()), Call.ReadUntil(delimiter, io))
      ensures State() == After(old(State()), Call.ReadUntil(delimiter, io))
    {
      if !open {
        return NotConnected;
      }
      readBuffer := readBuffer + io.bytes;
      if !io.ending.Done? {
        reply := ThrowOnReadError(io.ending);
        return;
      }
      var n := FirstMatch(readBuffer, delimiter, 0);
      reply := Bytes(readBuffer[..n]);
      readBuffer := readBuffer[n..];
    }

    method ReadSome(io: Io) returns (reply: Reply)
      requires Serves(State(), Call.ReadSome(io))
      modifies this
      ensures reply == Answer(old(State()), Call.ReadSome(io))
      ensures State() == After(old(State()), Call.ReadSome(io))
    {
      if !open {
        return NotConnected;
      }
      if readBuffer == "" {
        readBuffer := readBuffer + io.bytes;
        if readBuffer == "" && !io.ending.Done? {
          reply := ThrowOnReadError(io.ending);
          return;
        }
      }
      var result := readBuffer;
      readBuffer := "";
      reply := Bytes(result);
    }
  }
}
