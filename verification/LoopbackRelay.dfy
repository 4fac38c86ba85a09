/**
  The two-way relay behind the loopback ingress: bounded buffers, half-close, one total cap.

  The source keys its buffers and sets by socket; the model groups them by direction, so that one
  flow holds what its destination still has to receive, whether its source is still read, and
  whether its destination was told the end.  A ghost trace records the socket calls of a flow.
 */
module LoopbackRelay {

  import opened Octets

  const BUFFER_LIMIT := 65536
  const TOTAL_LIMIT := 16 * 1024 * 1024

  // ----- Traces of one direction

  datatype Act =
    | Received(chunk: Bytes)   // from the source
    | PeerEnded                // the source reached end of stream
    | Sent(part: Bytes)        // accepted by the destination
    | WriteShut                // the destination was told the end

  function AllReceived(t: seq<Act>): Bytes {
    if t == [] then []
    else AllReceived(t[..|t| - 1]) + if t[|t| - 1].Received? then t[|t| - 1].chunk else []
  }

  function AllSent(t: seq<Act>): Bytes {
    if t == [] then []
    else AllSent(t[..|t| - 1]) + if t[|t| - 1].Sent? then t[|t| - 1].part else []
  }

  /** How much of what was received the destination has not accepted yet. */
  function Undelivered(t: seq<Act>): int {
    |AllReceived(t)| - |AllSent(t)|
  }

  /**
    Every act fits the acts before it: what was sent is a prefix of what was received; no more than the
    buffer is received ahead of the destination, and nothing after the peer's end; the destination is shut once, as the last act, after the peer's
    end, when everything received has been sent.
   */
  ghost predicate Orderly(t: seq<Act>) {
    t == [] || (Orderly(t[..|t| - 1]) && OrderlyAct(t[..|t| - 1], t[|t| - 1]))
  }

  ghost predicate OrderlyAct(before: seq<Act>, act: Act) {
    && WriteShut !in before
    && match act
       case Received(chunk) => PeerEnded !in before && chunk != [] && Undelivered(before) + |chunk| <= BUFFER_LIMIT
       case PeerEnded => PeerEnded !in before
       case Sent(part) => part != [] && AllSent(before) + part <= AllReceived(before)
       case WriteShut => PeerEnded in before && AllSent(before) == AllReceived(before)
  }

  lemma OneMoreAct(t: seq<Act>, act: Act)
    ensures Orderly(t + [act]) <==> Orderly(t) && OrderlyAct(t, act)
    ensures AllReceived(t + [act]) == AllReceived(t) + if act.Received? then act.chunk else []
    ensures AllSent(t + [act]) == AllSent(t) + if act.Sent? then act.part else []
  {
    var u := t + [act];
    assert u[..|u| - 1] == t && u[|u| - 1] == act;
  }

  /** Every earlier cut of an orderly trace is orderly: the claims below hold at every moment. */
  lemma {:induction false} OrderlyCut(t: seq<Act>, n: nat)
    requires Orderly(t) && n <= |t|
    ensures Orderly(t[..n])
  {
    if n == |t| {
      assert t[..n] == t;
    } else {
      OrderlyCut(t[..|t| - 1], n);
      assert t[..|t| - 1][..n] == t[..n];
    }
  }

  /** In an orderly trace delivery never runs ahead of, or departs from, the source. */
  lemma {:induction false} DeliveryIsPrefix(t: seq<Act>)
    requires Orderly(t)
    ensures AllSent(t) <= AllReceived(t)
  {
    if t != [] { DeliveryIsPrefix(t[..|t| - 1]); }
  }

  /** In an orderly trace, hence at every earlier cut of it too, at most the buffer is undelivered. */
  lemma {:induction false} UndeliveredFits(t: seq<Act>)
    requires Orderly(t)
    ensures 0 <= Undelivered(t) <= BUFFER_LIMIT
  {
    DeliveryIsPrefix(t);
    if t != [] {
      UndeliveredFits(t[..|t| - 1]);
      assert t == t[..|t| - 1] + [t[|t| - 1]];
    }
  }

  /** A half-close is only ever seen last, after complete delivery of a finished source. */
  lemma {:induction false} ShutMeansDelivered(t: seq<Act>)
    requires Orderly(t) && WriteShut in t
    ensures t[|t| - 1] == WriteShut && PeerEnded in t[..|t| - 1]
    ensures AllSent(t[..|t| - 1]) == AllReceived(t[..|t| - 1])
  {
    assert t == t[..|t| - 1] + [t[|t| - 1]];
  }

  // ----- The clock, the sockets and select: any answer the calls may give

  datatype Attempt = Failed | Got(chunk: Bytes)
  datatype Sending = SendFailed | Took(count: nat)

  class Environment {
    var clock: nat
    const deadline: nat
    ghost var ended: bool     // the loop guard has said no
    ghost var raised: bool    // a socket call has raised
    ghost var refused: bool   // a send has taken nothing

    /** Nothing has gone wrong so far. */
    ghost predicate Calm()
      reads this
    {
      !ended && !raised && !refused
    }

    /** The loop guard: not stopped, and before the deadline. */
    method Active() returns (active: bool)
      modifies this
      ensures clock >= old(clock)
      ensures active ==> clock < deadline
      ensures ended == (old(ended) || !active) && raised == old(raised) && refused == old(refused)
    {
      var waited: nat :| waited >= 0;
      clock := clock + waited;
      var stop: bool := *;
      active := !stop && clock < deadline;
      ended := ended || !active;
    }

    /** Picks among what is offered; it has waited out its timeout when it picks nothing. */
    method Select(offered: (bool, bool, bool, bool)) returns (picked: (bool, bool, bool, bool))
      modifies this
      ensures picked.0 ==> offered.0
      ensures picked.1 ==> offered.1
      ensures picked.2 ==> offered.2
      ensures picked.3 ==> offered.3
      ensures clock >= old(clock) && ended == old(ended) && raised == old(raised) && refused == old(refused)
      ensures picked == (false, false, false, false) ==> clock > old(clock)
    {
      var a: bool, b: bool, c: bool, d: bool := *, *, *, *;
      picked := (a && offered.0, b && offered.1, c && offered.2, d && offered.3);
      var waited: nat :| waited >= 0;
      clock := clock + waited + 1;
    }

    method Recv(limit: nat) returns (r: Attempt)
      requires limit > 0
      modifies this
      ensures r.Got? ==> |r.chunk| <= limit
      ensures clock == old(clock) && ended == old(ended) && refused == old(refused)
      ensures raised == (old(raised) || r.Failed?)
    {
      var failed: bool := *;
      if failed {
        raised := true;
        return Failed;
      }
      var chunk: Bytes :| |chunk| <= limit;
      return Got(chunk);
    }

    method Send(data: Bytes) returns (r: Sending)
      requires data != []
      modifies this
      ensures r.Took? ==> r.count <= |data|
      ensures clock == old(clock) && ended == old(ended)
      ensures raised == (old(raised) || r.SendFailed?) && refused == (old(refused) || r == Took(0))
    {
      var failed: bool := *;
      if failed {
        raised := true;
        return SendFailed;
      }
      var count: nat :| count <= |data|;
      refused := refused || count == 0;
      return Took(count);
    }

    method Shutdown() returns (ok: bool)
      modifies this
      ensures clock == old(clock) && ended == old(ended) && refused == old(refused) && raised == (old(raised) || !ok)
    {
      ok := *;
      raised := raised || !ok;
    }
  }

  // ----- One direction

  datatype Reception = Raised | Ended | Chunk(bytes: Bytes)

  class Flow {
    var pending: Bytes
    var reading: bool
    var writtenEof: bool
    ghost var trace: seq<Act>

    ghost predicate Valid()
      reads this
    {
      && Orderly(trace)
      && AllReceived(trace) == AllSent(trace) + pending
      && |pending| <= BUFFER_LIMIT
      && (reading <==> PeerEnded !in trace)
      && (writtenEof <==> WriteShut in trace)
      && (writtenEof ==> pending == [])
    }

    ghost function ReceivedBytes(): nat
      reads this
    {
      |AllReceived(trace)|
    }

    /** Bytes still to send, and one for an end still to see. */
    ghost function Load(): nat
      reads this
    {
      |pending| + if reading then 1 else 0
    }

    predicate Readable()
      reads this
    {
      reading && |pending| < BUFFER_LIMIT
    }

    constructor ()
      ensures Valid() && pending == [] && reading && !writtenEof && trace == []
    {
      pending, reading, writtenEof, trace := [], true, false, [];
    }

    /** Shuts the destination's write side once nothing is left to come or to send. */
    method HalfClose(env: Environment) returns (ok: bool)
      requires Valid()
      modifies this, env
      ensures env.clock == old(env.clock) && (old(env.Calm()) ==> (if ok then env.Calm() else env.raised))
      ensures Valid() && pending == old(pending) && reading == old(reading)
      ensures ReceivedBytes() == old(ReceivedBytes())
      ensures ok && !reading && pending == [] ==> writtenEof
      ensures trace == old(trace) ||
        (trace == old(trace) + [WriteShut] && !reading && pending == [] && !old(writtenEof))
    {
      if reading || pending != [] || writtenEof {
        return true;
      }
      ok := env.Shutdown();
      if ok {
        OneMoreAct(trace, WriteShut);
        trace := trace + [WriteShut];
        writtenEof := true;
      }
    }

    /** recv() into the free part of the buffer.  A chunk is not buffered here: it is counted first. */
    method Receive(env: Environment) returns (r: Reception)
      requires Valid() && Readable()
      modifies this, env
      ensures env.clock == old(env.clock) && (old(env.Calm()) ==> (if r.Raised? then env.raised else env.Calm()))
      ensures Valid() && pending == old(pending) && ReceivedBytes() == old(ReceivedBytes())
      ensures r.Ended? <==> !reading
      ensures Load() == old(Load()) - if r.Ended? then 1 else 0
      ensures r.Chunk? ==> trace == old(trace) && r.bytes != [] && |r.bytes| <= BUFFER_LIMIT - |pending|
    {
      var got := env.Recv(BUFFER_LIMIT - |pending|);
      if got.Failed? {
        return Raised;
      }
      if got.chunk == [] {
        OneMoreAct(trace, PeerEnded);
        trace := trace + [PeerEnded];
        reading := false;
        return Ended;
      }
      return Chunk(got.chunk);
    }

    method Buffer(chunk: Bytes)
      requires Valid() && reading && chunk != [] && |chunk| <= BUFFER_LIMIT - |pending|
      modifies this
      ensures Valid() && pending == old(pending) + chunk && reading
      ensures trace == old(trace) + [Received(chunk)]
      ensures ReceivedBytes() == old(ReceivedBytes()) + |chunk|
    {
      OneMoreAct(trace, Received(chunk));
      trace := trace + [Received(chunk)];
      pending := pending + chunk;
    }

    /** send() takes a first part of the buffer, which leaves it. */
    method Transmit(env: Environment) returns (r: Sending)
      requires Valid() && pending != []
      modifies this, env
      ensures env.clock == old(env.clock)
      ensures old(env.Calm()) ==> if r.SendFailed? then env.raised else if r.count == 0 then env.refused else env.Calm()
      ensures Valid() && reading == old(reading) && ReceivedBytes() == old(ReceivedBytes())
      ensures r.Took? && r.count > 0 ==> |pending| == |old(pending)| - r.count
      ensures !(r.Took? && r.count > 0) ==> pending == old(pending) && trace == old(trace)
      ensures r.Took? && r.count > 0 ==> r.count <= |old(pending)| && trace == old(trace) + [Sent(old(pending)[..r.count])]
    {
      r := env.Send(pending);
      if r.Took? && r.count > 0 {
        var part := pending[..r.count];
        assert pending == part + pending[r.count..];
        OneMoreAct(trace, Sent(part));
        trace := trace + [Sent(part)];
        pending := pending[r.count..];
      }
    }
  }

  // ----- The select loop

  datatype Exit =
    | Graceful        // both ends closed and everything delivered
    | OverCap         // the total cap was passed
    | SendRefused     // send() took nothing
    | TransportError  // a socket call raised
    | Stopped         // stop requested, or the deadline passed

  /** Every early way out has its cause; going on leaves none. */
  ghost predicate Caused(exit: Exit, env: Environment)
    reads env
  {
    && (exit == SendRefused ==> env.refused) && (exit == TransportError ==> env.raised)
    && (exit == Stopped ==> env.Calm())
  }

  /** The peer ended, everything it sent arrived, and the destination was told. */
  ghost predicate Delivered(t: seq<Act>) {
    PeerEnded in t && WriteShut in t && AllSent(t) == AllReceived(t)
  }

  class Relay {
    const toUpstream: Flow     // client to upstream
    const toClient: Flow       // upstream to client
    var total: nat
    ghost var dropped: Bytes   // the chunk that passed the cap: received, never buffered

    ghost predicate Valid()
      reads this, toUpstream, toClient
    {
      && toUpstream != toClient && toUpstream.Valid() && toClient.Valid()
      && total == toUpstream.ReceivedBytes() + toClient.ReceivedBytes()
      && total <= TOTAL_LIMIT && dropped == []
    }

    constructor ()
      ensures Valid() && fresh(toUpstream) && fresh(toClient)
      ensures toUpstream.trace == [] && toClient.trace == []
    {
      toUpstream := new Flow();
      toClient := new Flow();
      total, dropped := 0, [];
    }

    /** Falls with every chunk received, every end of stream seen and every byte sent. */
    ghost function Work(): nat
      requires Valid()
      reads this, toUpstream, toClient
    {
      2 * (TOTAL_LIMIT - total) + toUpstream.Load() + toClient.Load()
    }

    /** A received chunk counts against the cap before it is buffered. */
    method Admit(flow: Flow, other: Flow, chunk: Bytes) returns (exit: Exit)
      requires Valid()
      requires (flow == toUpstream && other == toClient) || (flow == toClient && other == toUpstream)
      requires flow.reading && chunk != [] && |chunk| <= BUFFER_LIMIT - |flow.pending|
      modifies this, flow
      ensures flow.Valid() && old(flow.pending) <= flow.pending
      ensures exit == Stopped || exit == OverCap
      ensures exit == Stopped ==> Valid() && Work() < old(Work())
      ensures exit == OverCap ==> flow.ReceivedBytes() == old(flow.ReceivedBytes()) && dropped != []
      ensures exit == OverCap ==> flow.ReceivedBytes() + other.ReceivedBytes() + |dropped| > TOTAL_LIMIT
    {
      total := total + |chunk|;
      if total > TOTAL_LIMIT {
        dropped := chunk;
        return OverCap;
      }
      flow.Buffer(chunk);
      return Stopped;
    }

    /** One ready source. */
    method ReceiveInto(flow: Flow, other: Flow, env: Environment) returns (exit: Exit)
      requires Valid()
      requires (flow == toUpstream && other == toClient) || (flow == toClient && other == toUpstream)
      requires flow.Readable()
      modifies this, flow, env
      ensures env.clock == old(env.clock) && (old(env.Calm()) ==> Caused(exit, env))
      ensures flow.Valid() && old(flow.pending) <= flow.pending
      ensures exit in {Stopped, TransportError, OverCap}
      ensures exit != OverCap ==> Valid() && Work() <= old(Work())
      ensures exit == Stopped ==> Work() < old(Work())
      ensures exit == OverCap ==> flow.ReceivedBytes() == old(flow.ReceivedBytes()) && dropped != []
      ensures exit == OverCap ==> flow.ReceivedBytes() + other.ReceivedBytes() + |dropped| > TOTAL_LIMIT
    {
      var r := flow.Receive(env);
      if r.Raised? {
        return TransportError;
      }
      if r.Ended? {
        return Stopped;
      }
      exit := Admit(flow, other, r.bytes);
    }

    /** One writable destination: whatever it took leaves the buffer. */
    method TransmitFrom(flow: Flow, other: Flow, env: Environment) returns (exit: Exit)
      requires Valid()
      requires (flow == toUpstream && other == toClient) || (flow == toClient && other == toUpstream)
      requires flow.pending != []
      modifies flow, env
      ensures env.clock == old(env.clock) && (old(env.Calm()) ==> Caused(exit, env))
      ensures Valid() && exit in {Stopped, TransportError, SendRefused} && Work() <= old(Work())
      ensures exit == Stopped ==> Work() < old(Work())
    {
      var r := flow.Transmit(env);
      if r.SendFailed? {
        return TransportError;
      }
      return if r.count == 0 then SendRefused else Stopped;
    }

    method HalfCloseBoth(env: Environment) returns (ok: bool)
      requires Valid()
      modifies toUpstream, toClient, env
      ensures env.clock == old(env.clock) && (old(env.Calm()) ==> (if ok then env.Calm() else env.raised))
      ensures Valid() && Work() == old(Work())
      ensures toUpstream.pending == old(toUpstream.pending) && toClient.pending == old(toClient.pending)
      ensures toUpstream.reading == old(toUpstream.reading) && toClient.reading == old(toClient.reading)
      ensures ok && !toUpstream.reading && toUpstream.pending == [] ==> toUpstream.writtenEof
      ensures ok && !toClient.reading && toClient.pending == [] ==> toClient.writtenEof
    {
      ok := toUpstream.HalfClose(env);
      if ok {
        ok := toClient.HalfClose(env);
      }
    }

    /** Every picked source in turn. */
    method ReceiveRound(fromClient: bool, fromUpstream: bool, env: Environment) returns (exit: Exit)
      requires Valid()
      requires (fromClient ==> toUpstream.Readable()) && (fromUpstream ==> toClient.Readable())
      modifies this, toUpstream, toClient, env
      ensures env.clock == old(env.clock) && (old(env.Calm()) ==> Caused(exit, env))
      ensures toUpstream.Valid() && toClient.Valid() && exit in {Stopped, TransportError, OverCap}
      ensures old(toUpstream.pending) <= toUpstream.pending && old(toClient.pending) <= toClient.pending
      ensures exit != OverCap ==> Valid() && Work() <= old(Work())
      ensures exit == Stopped && (fromClient || fromUpstream) ==> Work() < old(Work())
      ensures exit == OverCap ==> dropped != []
      ensures toUpstream.ReceivedBytes() + toClient.ReceivedBytes() <= TOTAL_LIMIT
      ensures exit == OverCap ==>
        toUpstream.ReceivedBytes() + toClient.ReceivedBytes() + |dropped| > TOTAL_LIMIT
    {
      exit := Stopped;
      if fromClient {
        exit := ReceiveInto(toUpstream, toClient, env);
      }
      if exit == Stopped && fromUpstream {
        exit := ReceiveInto(toClient, toUpstream, env);
      }
    }

    /** Every picked destination in turn. */
    method SendRound(toServer: bool, toPeer: bool, env: Environment) returns (exit: Exit)
      requires Valid()
      requires (toServer ==> toUpstream.pending != []) && (toPeer ==> toClient.pending != [])
      modifies toUpstream, toClient, env
      ensures env.clock == old(env.clock) && (old(env.Calm()) ==> Caused(exit, env))
      ensures Valid() && exit in {Stopped, TransportError, SendRefused} && Work() <= old(Work())
      ensures exit == Stopped && (toServer || toPeer) ==> Work() < old(Work())
    {
      exit := Stopped;
      if toServer {
        exit := TransmitFrom(toUpstream, toClient, env);
      }
      if exit == Stopped && toPeer {
        exit := TransmitFrom(toClient, toUpstream, env);
      }
    }

    /** One round of select, receives, then sends.  A round that goes on did work, or time passed. */
    method Round(env: Environment) returns (exit: Exit)
      requires Valid()
      modifies this, toUpstream, toClient, env
      ensures old(env.Calm()) ==> Caused(exit, env)
      ensures toUpstream.Valid() && toClient.Valid() && exit != Graceful
      ensures exit != OverCap ==> Valid()
      ensures exit == Stopped ==> env.clock > old(env.clock) || (env.clock == old(env.clock) && Work() < old(Work()))
      ensures exit == OverCap ==> dropped != []
      ensures toUpstream.ReceivedBytes() + toClient.ReceivedBytes() <= TOTAL_LIMIT
      ensures exit == OverCap ==>
        toUpstream.ReceivedBytes() + toClient.ReceivedBytes() + |dropped| > TOTAL_LIMIT
    {
      var picked := env.Select((toUpstream.Readable(), toClient.Readable(), toUpstream.pending != [], toClient.pending != []));
      exit := ReceiveRound(picked.0, picked.1, env);
      if exit == Stopped {
        exit := SendRound(picked.2, picked.3, env);
      }
    }

    method RunLoop(env: Environment) returns (exit: Exit)
      requires Valid()
      modifies this, toUpstream, toClient, env
      ensures old(env.Calm()) ==> if exit == Stopped then env.ended else Caused(exit, env)
      ensures toUpstream.Valid() && toClient.Valid()
      ensures toUpstream.ReceivedBytes() + toClient.ReceivedBytes() <= TOTAL_LIMIT
      ensures exit == Graceful ==> toUpstream.writtenEof && toClient.writtenEof
      ensures exit == OverCap <==> dropped != []
      ensures exit == OverCap ==>
        toUpstream.ReceivedBytes() + toClient.ReceivedBytes() + |dropped| > TOTAL_LIMIT
    {
      var active := env.Active();
      while active
        invariant Valid()
        invariant active ==> env.clock < env.deadline
        invariant old(env.Calm()) ==> if active then env.Calm() else env.ended
        decreases env.deadline - env.clock, Work()
      {
        var shut := HalfCloseBoth(env);
        if !shut {
          return TransportError;
        }
        if !toUpstream.reading && !toClient.reading && toUpstream.pending == [] && toClient.pending == [] {
          return Graceful;
        }
        exit := Round(env);
        if exit != Stopped {
          return;
        }
        active := env.Active();
      }
      return Stopped;
    }

    /**
      Relays until both directions are closed, or something ends it early; the buffers are emptied
      on every way out.  The loop terminates: an idle select moves the clock towards the deadline,
      and any other round does work.
     */
    method Forward(env: Environment) returns (exit: Exit)
      requires Valid() && toUpstream.trace == [] && toClient.trace == []
      modifies this, toUpstream, toClient, env
      ensures old(env.Calm()) ==> if exit == Stopped then env.ended else Caused(exit, env)
      ensures Orderly(toUpstream.trace) && Orderly(toClient.trace)
      ensures AllSent(toUpstream.trace) <= AllReceived(toUpstream.trace)
      ensures AllSent(toClient.trace) <= AllReceived(toClient.trace)
      ensures |AllReceived(toUpstream.trace)| - |AllSent(toUpstream.trace)| <= BUFFER_LIMIT
      ensures |AllReceived(toClient.trace)| - |AllSent(toClient.trace)| <= BUFFER_LIMIT
      ensures |AllReceived(toUpstream.trace)| + |AllReceived(toClient.trace)| <= TOTAL_LIMIT
      ensures exit == Graceful ==> Delivered(toUpstream.trace) && Delivered(toClient.trace)
      ensures exit == OverCap <==> dropped != []
      ensures exit == OverCap ==>
        |AllReceived(toUpstream.trace)| + |AllReceived(toClient.trace)| + |dropped| > TOTAL_LIMIT
      ensures toUpstream.pending == [] && toClient.pending == []
    {
      exit := RunLoop(env);
      DeliveryIsPrefix(toUpstream.trace);
      DeliveryIsPrefix(toClient.trace);
      if exit == Graceful {
        ShutMeansDelivered(toUpstream.trace);
        ShutMeansDelivered(toClient.trace);
      }
      toUpstream.pending := [];
      toClient.pending := [];
    }
  }
}
