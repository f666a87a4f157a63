/** A browser terminal: the replay buffer of a session, its watchers, and the hub
    that owns the sessions. */
module Terminal {
  import opened Common

  newtype byte = x: int | 0 <= x < 256
  type Bytes = seq<byte>

  const MAX_BUFFER: nat := 0x1_0000
  const CHANNEL_CAPACITY: nat := 32

  /** A buffered Go channel: sending to or closing a closed one panics. */
  datatype Channel = Channel(queue: seq<Bytes>, open: bool)

  /** What a subscriber was given: the snapshot taken after `from` bytes of output,
      the chunks put into its channel, how many of them it has received, whether
      some chunk found the channel full, and, once it is closed, the output up to
      which it was served. */
  datatype Log = Log(snapshot: Bytes, from: nat, accepted: seq<Bytes>, received: nat, dropped: bool, until: Option<nat>)

  function Flatten(chunks: seq<Bytes>): Bytes {
    if chunks == [] then [] else Flatten(chunks[..|chunks| - 1]) + chunks[|chunks| - 1]
  }

  lemma {:induction false} FlattenConcat(a: seq<Bytes>, b: seq<Bytes>)
    ensures Flatten(a + b) == Flatten(a) + Flatten(b)
  {
    if b == [] {
      assert a + b == a;
    } else {
      FlattenConcat(a, b[..|b| - 1]);
      assert (a + b)[..|a + b| - 1] == a + b[..|b| - 1];
    }
  }

  lemma FlattenLast(a: seq<Bytes>, chunk: Bytes)
    ensures Flatten(a + [chunk]) == Flatten(a) + chunk
  {
    assert (a + [chunk])[..|a|] == a;
  }

  predicate IsSuffix(part: Bytes, all: Bytes) {
    |part| <= |all| && all[|all| - |part|..] == part
  }

  /** The replay buffer after `stream` has been written. */
  predicate BufferOk(buffer: Bytes, stream: Bytes) {
    IsSuffix(buffer, stream) && Min(|stream|, MAX_BUFFER) <= |buffer| <= 2 * MAX_BUFFER
  }

  function Trimmed(buffer: Bytes): Bytes {
    if |buffer| > 2 * MAX_BUFFER then buffer[|buffer| - MAX_BUFFER..] else buffer
  }

  lemma AppendKeepsBuffer(buffer: Bytes, stream: Bytes, data: Bytes)
    requires BufferOk(buffer, stream)
    ensures BufferOk(Trimmed(buffer + data), stream + data)
  {
    var all := stream + data;
    assert all[|all| - |buffer + data|..] == buffer + data;
  }

  lemma AppendNothing(buffer: Bytes, stream: Bytes, data: Bytes)
    requires BufferOk(buffer, stream) && data == []
    ensures stream + data == stream && Trimmed(buffer + data) == buffer
  {
    assert buffer + data == buffer;
  }

  /** The part of the output a subscriber has been served. */
  function ServedUntil(log: Log, stream: Bytes): nat {
    if log.until.Some? then log.until.value else |stream|
  }

  predicate LogOk(log: Log, ch: Channel, stream: Bytes) {
    var until := ServedUntil(log, stream);
    && log.received <= |log.accepted| && ch.queue == log.accepted[log.received..]
    && |ch.queue| <= CHANNEL_CAPACITY
    && (ch.open <==> log.until.None?)
    && log.from <= until <= |stream|
    && IsSuffix(log.snapshot, stream[..log.from])
    && (!log.dropped ==> Flatten(log.accepted) == stream[log.from..until])
  }

  /** A subscriber that lost no chunk has seen one contiguous piece of the output,
      and all of it up to the end of its subscription once its channel is empty. */
  lemma ContiguousView(log: Log, ch: Channel, stream: Bytes)
    requires LogOk(log, ch, stream) && !log.dropped
    ensures
      var seen := log.snapshot + Flatten(log.accepted[..log.received]);
      var first := log.from - |log.snapshot|;
      && first + |seen| <= |stream| && seen == stream[first..first + |seen|]
      && (ch.queue == [] ==> seen == stream[first..ServedUntil(log, stream)])
  {
    var taken := Flatten(log.accepted[..log.received]);
    assert log.accepted == log.accepted[..log.received] + ch.queue;
    FlattenConcat(log.accepted[..log.received], ch.queue);
    var until := ServedUntil(log, stream);
    assert taken + Flatten(ch.queue) == stream[log.from..until];
    assert taken == stream[log.from..until][..|taken|] == stream[log.from..log.from + |taken|];
    SuffixJoins(log.snapshot, stream, log.from, log.from + |taken|);
  }

  lemma SuffixJoins(part: Bytes, all: Bytes, from: nat, to: nat)
    requires from <= to <= |all| && IsSuffix(part, all[..from])
    ensures part + all[from..to] == all[from - |part|..to]
  {
    assert all[..from][from - |part|..] == all[from - |part|..from];
  }

  /** The non-blocking send of a chunk. */
  function SentTo(ch: Channel, data: Bytes): Channel {
    if |ch.queue| < CHANNEL_CAPACITY then ch.(queue := ch.queue + [data]) else ch
  }

  function Logged(log: Log, ch: Channel, data: Bytes): Log {
    if |ch.queue| < CHANNEL_CAPACITY then log.(accepted := log.accepted + [data]) else log.(dropped := true)
  }

  lemma SendKeepsLog(log: Log, ch: Channel, stream: Bytes, data: Bytes)
    requires LogOk(log, ch, stream) && ch.open
    ensures LogOk(Logged(log, ch, data), SentTo(ch, data), stream + data)
  {
    FlattenLast(log.accepted, data);
    assert (stream + data)[..log.from] == stream[..log.from];
    assert (stream + data)[log.from..] == stream[log.from..] + data;
    assert (log.accepted + [data])[log.received..] == log.accepted[log.received..] + [data];
  }

  lemma OutputKeepsClosedLog(log: Log, ch: Channel, stream: Bytes, data: Bytes)
    requires LogOk(log, ch, stream) && !ch.open
    ensures LogOk(log, ch, stream + data)
  {
    assert (stream + data)[..log.from] == stream[..log.from];
    assert (stream + data)[log.from..log.until.value] == stream[log.from..log.until.value];
  }

  // ---- All subscribers together ----------------------------------------------------------

  predicate AllLogged(logs: map<nat, Log>, channels: map<nat, Channel>, watchers: set<nat>, stream: Bytes) {
    && logs.Keys == channels.Keys
    && watchers <= channels.Keys
    && (forall c :: c in channels ==> LogOk(logs[c], channels[c], stream))
    && (forall c :: c in channels ==> (channels[c].open <==> c in watchers))
  }

  function Broadcast(channels: map<nat, Channel>, to: set<nat>, data: Bytes): map<nat, Channel> {
    map c | c in channels :: if c in to then SentTo(channels[c], data) else channels[c]
  }

  function Shut(channels: map<nat, Channel>, which: set<nat>): map<nat, Channel> {
    map c | c in channels :: if c in which then channels[c].(open := false) else channels[c]
  }

  function LogsAfterBroadcast(logs: map<nat, Log>, channels: map<nat, Channel>, to: set<nat>, data: Bytes): map<nat, Log>
    requires logs.Keys == channels.Keys
  {
    map c | c in logs :: if c in to then Logged(logs[c], channels[c], data) else logs[c]
  }

  function LogsAfterShut(logs: map<nat, Log>, which: set<nat>, at: nat): map<nat, Log> {
    map c | c in logs :: if c in which then logs[c].(until := Some(at)) else logs[c]
  }

  lemma BroadcastKeepsLogs(logs: map<nat, Log>, channels: map<nat, Channel>, watchers: set<nat>, stream: Bytes, data: Bytes)
    requires AllLogged(logs, channels, watchers, stream)
    ensures AllLogged(LogsAfterBroadcast(logs, channels, watchers, data), Broadcast(channels, watchers, data), watchers, stream + data)
  {
    forall c | c in channels
      ensures if c in watchers then LogOk(Logged(logs[c], channels[c], data), SentTo(channels[c], data), stream + data)
              else LogOk(logs[c], channels[c], stream + data)
    {
      if c in watchers { SendKeepsLog(logs[c], channels[c], stream, data); }
      else { OutputKeepsClosedLog(logs[c], channels[c], stream, data); }
    }
  }

  lemma ShutKeepsLogs(logs: map<nat, Log>, channels: map<nat, Channel>, watchers: set<nat>, stream: Bytes, which: set<nat>)
    requires AllLogged(logs, channels, watchers, stream) && which <= watchers
    ensures AllLogged(LogsAfterShut(logs, which, |stream|), Shut(channels, which), watchers - which, stream)
  {
  }

  lemma ShutNothing(logs: map<nat, Log>, channels: map<nat, Channel>, watchers: set<nat>, c: nat, at: nat)
    requires c !in watchers
    ensures watchers - {c} == watchers && watchers * {c} == {}
    ensures Shut(channels, watchers * {c}) == channels && LogsAfterShut(logs, watchers * {c}, at) == logs
  {
  }

  lemma ShutOne(channels: map<nat, Channel>, c: nat)
    requires c in channels
    ensures Shut(channels, {c}) == channels[c := channels[c].(open := false)]
  {
  }

  function NewLog(buffer: Bytes, stream: Bytes, closed: bool): Log {
    Log(buffer, |stream|, [], 0, false, if closed then Some(|stream|) else None)
  }

  lemma SubscribeKeepsLogs(logs: map<nat, Log>, channels: map<nat, Channel>, watchers: set<nat>, stream: Bytes,
                           buffer: Bytes, closed: bool, c: nat)
    requires AllLogged(logs, channels, watchers, stream) && IsSuffix(buffer, stream) && c !in channels
    ensures AllLogged(logs[c := NewLog(buffer, stream, closed)], channels[c := Channel([], !closed)],
                      if closed then watchers else watchers + {c}, stream)
  {
    assert stream[..|stream|] == stream && stream[|stream|..] == [];
    assert LogOk(NewLog(buffer, stream, closed), Channel([], !closed), stream);
  }

  lemma ReceiveKeepsLogs(logs: map<nat, Log>, channels: map<nat, Channel>, watchers: set<nat>, stream: Bytes, c: nat)
    requires AllLogged(logs, channels, watchers, stream) && c in channels && channels[c].queue != []
    ensures AllLogged(logs[c := logs[c].(received := logs[c].received + 1)], channels[c := channels[c].(queue := channels[c].queue[1..])],
                      watchers, stream)
  {
    assert logs[c].accepted[logs[c].received..][1..] == logs[c].accepted[logs[c].received + 1..];
    assert LogOk(logs[c].(received := logs[c].received + 1), channels[c].(queue := channels[c].queue[1..]), stream);
  }

  class TerminalSession {
    var buffer: Bytes
    var watchers: set<nat>
    var closed: bool
    var channels: map<nat, Channel>     // every channel Subscribe ever made
    ghost var stream: Bytes             // everything the terminal has written
    ghost var logs: map<nat, Log>

    ghost predicate Valid()
      reads this
    {
      && BufferOk(buffer, stream)
      && AllLogged(logs, channels, watchers, stream)
      && (closed ==> watchers == {})
    }

    constructor ()
      ensures Valid() && !closed && stream == [] && channels == map[]
    {
      buffer, watchers, closed, channels := [], {}, false, map[];
      stream, logs := [], map[];
    }

    /** Output arrives: it is kept for replay and offered to every watcher, without waiting for any. */
    method Append(data: Bytes)
      requires Valid()
      modifies `buffer, `channels, `stream, `logs
      ensures Valid()
      ensures stream == old(stream) + data
      ensures buffer == Trimmed(old(buffer) + data)
      ensures channels == if data == [] then old(channels) else Broadcast(old(channels), watchers, data)
      ensures logs == if data == [] then old(logs) else LogsAfterBroadcast(old(logs), old(channels), watchers, data)
      ensures forall c :: c in old(channels) ==>
        && c in channels && c in logs && c in old(logs)
        && channels[c].queue == old(channels)[c].queue +
             (if data != [] && c in watchers && |old(channels)[c].queue| < 32 then [data] else [])
        && (logs[c].dropped <==> old(logs)[c].dropped || (data != [] && c in watchers && |old(channels)[c].queue| >= 32))
    {
      if |data| == 0 {
        AppendNothing(buffer, stream, data);
        return;
      }
      AppendOutput(data);
    }

    method AppendOutput(data: Bytes)
      requires Valid()
      modifies `buffer, `channels, `stream, `logs
      ensures Valid()
      ensures stream == old(stream) + data
      ensures buffer == Trimmed(old(buffer) + data)
      ensures channels == Broadcast(old(channels), watchers, data)
      ensures logs == LogsAfterBroadcast(old(logs), old(channels), watchers, data)
    {
      AppendKeepsBuffer(buffer, stream, data);
      BroadcastKeepsLogs(logs, channels, watchers, stream, data);
      Keep(data);
      logs := LogsAfterBroadcast(logs, channels, watchers, data);
      stream := stream + data;
      SendToWatchers(data);
    }

    method Keep(data: Bytes)
      modifies `buffer
      ensures buffer == Trimmed(old(buffer) + data)
    {
      buffer := buffer + data;
      if |buffer| > MAX_BUFFER * 2 {
        buffer := buffer[|buffer| - MAX_BUFFER..];
      }
    }

    method SendToWatchers(data: Bytes)
      requires watchers <= channels.Keys && forall c :: c in watchers ==> channels[c].open
      modifies `channels
      ensures channels == Broadcast(old(channels), watchers, data)
    {
      var todo := watchers;
      while todo != {}
        invariant todo <= watchers
        invariant channels == Broadcast(old(channels), watchers - todo, data)
      {
        var c :| c in todo;
        Send(c, data);
        todo := todo - {c};
      }
    }

    /** Go's non-blocking send; it panics on a closed channel. */
    method Send(c: nat, data: Bytes)
      requires c in channels && channels[c].open
      modifies `channels
      ensures channels == old(channels)[c := SentTo(old(channels)[c], data)]
    {
      if |channels[c].queue| < CHANNEL_CAPACITY {
        channels := channels[c := channels[c].(queue := channels[c].queue + [data])];
      } else {
        assert channels[c := channels[c]] == channels;
      }
    }

    /** Go's close; it panics on a closed channel. */
    method CloseChannel(c: nat)
      requires c in channels && channels[c].open
      modifies `channels
      ensures channels == old(channels)[c := old(channels)[c].(open := false)]
    {
      channels := channels[c := channels[c].(open := false)];
    }

    /** The snapshot and a channel for what follows it; a closed session's channel is closed. */
    method Subscribe() returns (snapshot: Bytes, c: nat)
      requires Valid()
      modifies `channels, `watchers, `logs
      ensures Valid()
      ensures c !in old(channels) && snapshot == buffer
      ensures channels == old(channels)[c := Channel([], !closed)]
      ensures watchers == if closed then old(watchers) else old(watchers) + {c}
      ensures logs == old(logs)[c := NewLog(buffer, stream, closed)]
    {
      c := Unused(channels);
      snapshot := buffer;
      SubscribeKeepsLogs(logs, channels, watchers, stream, buffer, closed, c);
      logs := logs[c := NewLog(buffer, stream, closed)];
      channels := channels[c := Channel([], true)];
      if closed {
        CloseChannel(c);
        assert channels == old(channels)[c := Channel([], false)];
        return;
      }
      watchers := watchers + {c};
    }

    /** The function Subscribe returns; calling it again changes nothing. */
    method Cancel(c: nat)
      requires Valid()
      modifies `channels, `watchers, `logs
      ensures Valid()
      ensures watchers == old(watchers) - {c}
      ensures channels == Shut(old(channels), old(watchers) * {c})
      ensures logs == LogsAfterShut(old(logs), old(watchers) * {c}, |stream|)
    {
      if c !in watchers {
        ShutNothing(logs, channels, watchers, c, |stream|);
        return;
      }
      ShutKeepsLogs(logs, channels, watchers, stream, {c});
      ShutOne(channels, c);
      assert watchers * {c} == {c};
      logs := LogsAfterShut(logs, {c}, |stream|);
      watchers := watchers - {c};
      CloseChannel(c);
    }

    /** Closes every watcher's channel, once. */
    method CloseWatchers()
      requires Valid()
      modifies `channels, `watchers, `closed, `logs
      ensures Valid() && closed && watchers == {}
      ensures channels == Shut(old(channels), old(watchers))
      ensures logs == LogsAfterShut(old(logs), old(watchers), |stream|)
    {
      ShutKeepsLogs(logs, channels, watchers, stream, watchers);
      logs := LogsAfterShut(logs, watchers, |stream|);
      if closed {
        assert channels == Shut(channels, {});
        return;
      }
      closed := true;
      CloseEach();
    }

    method CloseEach()
      requires watchers <= channels.Keys && forall c :: c in watchers ==> channels[c].open
      modifies `channels, `watchers
      ensures watchers == {} && channels == Shut(old(channels), old(watchers))
    {
      while watchers != {}
        invariant watchers <= old(watchers) <= channels.Keys
        invariant channels == Shut(old(channels), old(watchers) - watchers)
        invariant forall c :: c in watchers ==> channels[c].open
      {
        var c :| c in watchers;
        CloseChannel(c);
        watchers := watchers - {c};
      }
      assert old(watchers) - {} == old(watchers);
    }

    /** The subscriber takes the next chunk; None if there is none (yet). */
    method Receive(c: nat) returns (chunk: Option<Bytes>)
      requires Valid() && c in channels
      modifies `channels, `logs
      ensures Valid()
      ensures chunk == if old(channels)[c].queue == [] then None else Some(old(channels)[c].queue[0])
      ensures channels == if chunk.None? then old(channels)
                          else old(channels)[c := old(channels)[c].(queue := old(channels)[c].queue[1..])]
      ensures logs == if chunk.None? then old(logs) else old(logs)[c := old(logs)[c].(received := old(logs)[c].received + 1)]
    {
      if channels[c].queue == [] { return None; }
      ReceiveKeepsLogs(logs, channels, watchers, stream, c);
      chunk := Some(channels[c].queue[0]);
      channels := channels[c := channels[c].(queue := channels[c].queue[1..])];
      logs := logs[c := logs[c].(received := logs[c].received + 1)];
    }
  }

  /** A channel no subscriber has been given. */
  method Unused(channels: map<nat, Channel>) returns (c: nat)
    ensures c !in channels
  {
    c := 0;
    ghost var below: set<nat> := {};
    while c in channels
      invariant below <= channels.Keys && |below| == c && forall x :: x in below ==> x < c
      decreases |channels.Keys| - c
    {
      below := below + {c};
      SubsetSize(below, channels.Keys);
      c := c + 1;
    }
  }
}
