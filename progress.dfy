/**
 * The progress notification channel (internal/api/progress.go).
 *
 * One process-wide slot holds at most one subscriber connection. Each
 * critical section guarded by `wsLock` is one atomic step: a subscribe
 * (close the old connection, install the new one), the end of a read loop
 * (clear the slot), and a publish (drop, write, or close and clear).
 * The outcomes of the WebSocket upgrade, of each read and of each write are
 * inputs.
 */
module Progress {
  import opened Wrappers

  /** A WebSocket connection, named by the order in which its upgrade succeeded. */
  type ConnId = nat

  /** A `float64`, kept as its bit pattern: the channel never inspects it. */
  datatype Float64 = Float64(bits: bv64)

  /** `ProgressMessage`: the `{fileName, progress}` object sent per tick. */
  datatype ProgressMessage = ProgressMessage(fileName: string, progress: Float64)

  datatype MessageType = TextMessage | BinaryMessage

  /** One WebSocket frame as written to a connection. */
  datatype Frame = Frame(kind: MessageType, payload: ProgressMessage)

  /**
   * The channel's observable state: the slot `wsConn`, how many connections
   * have been upgraded so far (the next one gets this id), the connections
   * closed by the channel, and every frame written to each connection.
   */
  datatype Hub = Hub(current: Option<ConnId>, nextConn: ConnId, closed: set<ConnId>, sent: map<ConnId, seq<Frame>>)

  /** The slot starts empty and no connection exists yet. */
  const Initial: Hub := Hub(None, 0, {}, map[])

  /** The frames written to connection `c` so far. */
  function SentTo(h: Hub, c: ConnId): (log: seq<Frame>)
  {
    if c in h.sent then h.sent[c] else []
  }

  /**
   * Every connection the hub knows of has been upgraded, and the connection
   * in the slot has not been closed.
   */
  predicate Inv(h: Hub)
  {
    && (h.current.Some? ==> h.current.value < h.nextConn && h.current.value !in h.closed)
    && (forall c :: c in h.closed ==> c < h.nextConn)
    && (forall c :: c in h.sent ==> c < h.nextConn)
  }

  /** The locked section after a successful upgrade: close the old connection, install the new one. */
  function Subscribed(h: Hub): (h': Hub)
  {
    var closed := if h.current.Some? then h.closed + {h.current.value} else h.closed;
    Hub(Some(h.nextConn), h.nextConn + 1, closed, h.sent)
  }

  /** The locked section after a read error, as written: the slot is cleared whoever holds it. */
  function ReadFailed(h: Hub): (h': Hub)
  {
    h.(current := None)
  }

  /** The same section clearing the slot only if it still holds the loop's own connection. */
  function ReadFailedGuarded(h: Hub, own: ConnId): (h': Hub)
  {
    if h.current == Some(own) then h.(current := None) else h
  }

  /** `SendProgress`: drop with no subscriber, append one text frame, or close and clear. */
  function Published(h: Hub, m: ProgressMessage, writeOk: bool): (h': Hub)
  {
    match h.current
    case None => h
    case Some(c) =>
      if writeOk then h.(sent := h.sent[c := SentTo(h, c) + [Frame(TextMessage, m)]])
      else h.(current := None, closed := h.closed + {c})
  }

  /** The atomic sections in the order the lock admits them. */
  datatype Event =
    | Subscribe(upgradeOk: bool)
    | ReadError(conn: ConnId)
    | Publish(msg: ProgressMessage, writeOk: bool)

  /** One section; `guarded` selects the corrected read-loop exit. */
  function Step(h: Hub, e: Event, guarded: bool): (h': Hub)
  {
    match e
    case Subscribe(ok) => if ok then Subscribed(h) else h
    case ReadError(own) => if guarded then ReadFailedGuarded(h, own) else ReadFailed(h)
    case Publish(m, ok) => Published(h, m, ok)
  }

  /** A run of sections, first to last. */
  function Run(h: Hub, es: seq<Event>, guarded: bool): (h': Hub)
    decreases |es|
  {
    if es == [] then h else Run(Step(h, es[0], guarded), es[1..], guarded)
  }

  /** `n` successful upgrades in a row. */
  function Subscribes(n: nat): (es: seq<Event>)
  {
    seq(n, _ => Subscribe(true))
  }

  /** Publishes of `ms`, in order, each of whose writes succeeds. */
  function Deliveries(ms: seq<ProgressMessage>): (es: seq<Event>)
  {
    seq(|ms|, i requires 0 <= i < |ms| => Publish(ms[i], true))
  }

  /** The frames a subscriber receives for `ms`: one text frame per message. */
  function TextFrames(ms: seq<ProgressMessage>): (fs: seq<Frame>)
  {
    seq(|ms|, i requires 0 <= i < |ms| => Frame(TextMessage, ms[i]))
  }

  predicate AllPublishes(es: seq<Event>)
  {
    forall i :: 0 <= i < |es| ==> es[i].Publish?
  }

  // ---------------------------------------------------------------------
  // Properties of the state machine

  lemma StepPreservesInv(h: Hub, e: Event, guarded: bool)
    requires Inv(h)
    ensures Inv(Step(h, e, guarded))
  {
  }

  /** Every run of sections keeps the invariant. */
  lemma {:induction false} RunPreservesInv(h: Hub, es: seq<Event>, guarded: bool)
    requires Inv(h)
    ensures Inv(Run(h, es, guarded))
    decreases |es|
  {
    if es != [] {
      StepPreservesInv(h, es[0], guarded);
      RunPreservesInv(Step(h, es[0], guarded), es[1..], guarded);
    }
  }

  /**
   * After subscribes S1..Sn (no failure in between) only Sn is in the slot
   * and open; S1..Sn-1, and whoever held the slot before, are closed, and
   * nothing is written.
   */
  lemma {:induction false} OnlyLastSubscriberOpen(h: Hub, n: nat, guarded: bool)
    requires Inv(h) && n >= 1
    ensures var r := Run(h, Subscribes(n), guarded);
      && r.current == Some(h.nextConn + n - 1)
      && r.nextConn == h.nextConn + n
      && h.nextConn + n - 1 !in r.closed
      && (forall c :: h.nextConn <= c < h.nextConn + n - 1 ==> c in r.closed)
      && (h.current.Some? ==> h.current.value in r.closed)
      && h.closed <= r.closed
      && r.sent == h.sent
    decreases n
  {
    var h1 := Subscribed(h);
    assert Subscribes(n)[0] == Subscribe(true);
    assert Subscribes(n)[1..] == Subscribes(n - 1);
    assert Run(h, Subscribes(n), guarded) == Run(h1, Subscribes(n - 1), guarded);
    if n == 1 {
      assert Subscribes(0) == [];
    } else {
      OnlyLastSubscriberOpen(h1, n - 1, guarded);
    }
  }

  /**
   * Publishing `ms` to a current subscriber whose writes all succeed
   * appends exactly one text frame per message, in call order, and changes
   * nothing else.
   */
  lemma {:induction false} DeliveredInOrder(h: Hub, c: ConnId, ms: seq<ProgressMessage>, guarded: bool)
    requires h.current == Some(c)
    ensures var r := Run(h, Deliveries(ms), guarded);
      && r.current == Some(c)
      && r.nextConn == h.nextConn
      && r.closed == h.closed
      && SentTo(r, c) == SentTo(h, c) + TextFrames(ms)
      && (forall d :: d != c ==> SentTo(r, d) == SentTo(h, d))
    decreases |ms|
  {
    if ms == [] {
      assert Deliveries(ms) == [];
      assert TextFrames(ms) == [];
    } else {
      var h1 := Published(h, ms[0], true);
      assert Deliveries(ms)[0] == Publish(ms[0], true);
      assert Deliveries(ms)[1..] == Deliveries(ms[1..]);
      assert TextFrames(ms) == [Frame(TextMessage, ms[0])] + TextFrames(ms[1..]);
      DeliveredInOrder(h1, c, ms[1..], guarded);
    }
  }

  /** Hence N successful publishes give exactly N new frames, the i-th carrying the i-th message. */
  lemma CountedDelivery(h: Hub, c: ConnId, ms: seq<ProgressMessage>, guarded: bool)
    requires h.current == Some(c)
    ensures var r := Run(h, Deliveries(ms), guarded);
      && |SentTo(r, c)| == |SentTo(h, c)| + |ms|
      && forall i :: 0 <= i < |ms| ==> SentTo(r, c)[|SentTo(h, c)| + i] == Frame(TextMessage, ms[i])
  {
    DeliveredInOrder(h, c, ms, guarded);
  }

  /** With the slot empty, any run of publishes writes nothing and changes nothing. */
  lemma {:induction false} SilentWithoutSubscriber(h: Hub, es: seq<Event>, guarded: bool)
    requires h.current == None && AllPublishes(es)
    ensures Run(h, es, guarded) == h
    decreases |es|
  {
    if es != [] {
      assert es[0].Publish?;
      SilentWithoutSubscriber(h, es[1..], guarded);
    }
  }

  /**
   * A failed write closes the current connection and empties the slot;
   * every later publish with no subscribe in between is a no-op.
   */
  lemma FailedWriteThenSilent(h: Hub, c: ConnId, m: ProgressMessage, es: seq<Event>, guarded: bool)
    requires h.current == Some(c) && AllPublishes(es)
    ensures var r := Run(h, [Publish(m, false)] + es, guarded);
      && r == h.(current := None, closed := h.closed + {c})
      && SentTo(r, c) == SentTo(h, c)
  {
    var h1 := h.(current := None, closed := h.closed + {c});
    assert ([Publish(m, false)] + es)[1..] == es;
    SilentWithoutSubscriber(h1, es, guarded);
  }

  /**
   * As written, the end of any read loop empties the slot, even when the
   * slot has since been given to a newer connection: after S1 is replaced
   * by S2, S1's loop (whose connection S2's subscribe has just closed)
   * clears S2, which stays open but no longer receives anything.
   */
  lemma StaleReadLoopClearsNewer(h: Hub, m: ProgressMessage)
    requires Inv(h)
    ensures var s1, s2 := h.nextConn, h.nextConn + 1;
      var r := Run(h, [Subscribe(true), Subscribe(true), ReadError(s1)], false);
      && s1 in r.closed
      && s2 !in r.closed
      && r.current == None
      && Run(r, [Publish(m, true)], false) == r
      && forall later :: SentTo(Run(r, later, false), s2) == SentTo(r, s2)
  {
    var s1, s2 := h.nextConn, h.nextConn + 1;
    var h2 := Run(h, [Subscribe(true), Subscribe(true)], false);
    TwoSubscribes(h, false);
    RunPreservesInv(h, [Subscribe(true), Subscribe(true)], false);
    var h3 := ReadFailed(h2);
    StepPreservesInv(h2, ReadError(s1), false);
    SplitRun(h, [Subscribe(true), Subscribe(true)], [ReadError(s1)], false);
    assert [Subscribe(true), Subscribe(true)] + [ReadError(s1)] == [Subscribe(true), Subscribe(true), ReadError(s1)];
    assert Run(h2, [ReadError(s1)], false) == h3;
    assert Run(h3, [Publish(m, true)], false) == h3;
    forall later
      ensures SentTo(Run(h3, later, false), s2) == SentTo(h3, s2)
    {
      ReplacedNeverWritten(h3, s2, later, false);
    }
  }

  /**
   * A connection that has been upgraded but no longer holds the slot never
   * gets it back, so nothing more is ever written to it, whatever follows.
   */
  lemma {:induction false} ReplacedNeverWritten(h: Hub, d: ConnId, es: seq<Event>, guarded: bool)
    requires Inv(h) && d < h.nextConn && h.current != Some(d)
    ensures Run(h, es, guarded).current != Some(d)
    ensures SentTo(Run(h, es, guarded), d) == SentTo(h, d)
    decreases |es|
  {
    if es != [] {
      StepPreservesInv(h, es[0], guarded);
      ReplacedNeverWritten(Step(h, es[0], guarded), d, es[1..], guarded);
    }
  }

  /**
   * As written, the usual reconnect schedule leaves two connections open:
   * S2's subscribe closes S1, S1's loop then ends and empties the slot, so
   * S3's subscribe finds nothing to close. S2 and S3 are both open, and S2
   * is no longer in the slot.
   */
  lemma StaleExitOrphansSubscriber(h: Hub)
    requires Inv(h)
    ensures var s1, s2, s3 := h.nextConn, h.nextConn + 1, h.nextConn + 2;
      var r := Run(h, [Subscribe(true), Subscribe(true), ReadError(s1), Subscribe(true)], false);
      && r.current == Some(s3)
      && s1 in r.closed
      && s2 !in r.closed
      && s3 !in r.closed
  {
    var s1 := h.nextConn;
    var h2 := Run(h, [Subscribe(true), Subscribe(true)], false);
    TwoSubscribes(h, false);
    var h3 := ReadFailed(h2);
    SplitRun(h, [Subscribe(true), Subscribe(true)], [ReadError(s1), Subscribe(true)], false);
    assert [Subscribe(true), Subscribe(true)] + [ReadError(s1), Subscribe(true)]
        == [Subscribe(true), Subscribe(true), ReadError(s1), Subscribe(true)];
    assert [ReadError(s1), Subscribe(true)][1..] == [Subscribe(true)];
    assert Run(h2, [ReadError(s1), Subscribe(true)], false) == Run(h3, [Subscribe(true)], false);
    assert Run(h3, [Subscribe(true)], false) == Subscribed(h3);
  }

  /** With the guarded exit, the same schedule closes S2 when S3 subscribes. */
  lemma GuardedReconnectClosesPrevious(h: Hub)
    requires Inv(h)
    ensures var s1, s2, s3 := h.nextConn, h.nextConn + 1, h.nextConn + 2;
      var r := Run(h, [Subscribe(true), Subscribe(true), ReadError(s1), Subscribe(true)], true);
      && r.current == Some(s3)
      && s1 in r.closed
      && s2 in r.closed
      && s3 !in r.closed
  {
    var s1 := h.nextConn;
    var h2 := Run(h, [Subscribe(true), Subscribe(true)], true);
    TwoSubscribes(h, true);
    assert ReadFailedGuarded(h2, s1) == h2;
    SplitRun(h, [Subscribe(true), Subscribe(true)], [ReadError(s1), Subscribe(true)], true);
    assert [Subscribe(true), Subscribe(true)] + [ReadError(s1), Subscribe(true)]
        == [Subscribe(true), Subscribe(true), ReadError(s1), Subscribe(true)];
    assert [ReadError(s1), Subscribe(true)][1..] == [Subscribe(true)];
    assert Run(h2, [ReadError(s1), Subscribe(true)], true) == Run(h2, [Subscribe(true)], true);
    assert Run(h2, [Subscribe(true)], true) == Subscribed(h2);
  }

  /** Two successful upgrades in a row: S1 is closed and S2 holds the slot. */
  lemma TwoSubscribes(h: Hub, guarded: bool)
    requires Inv(h)
    ensures var r := Run(h, [Subscribe(true), Subscribe(true)], guarded);
      && r.current == Some(h.nextConn + 1)
      && r.nextConn == h.nextConn + 2
      && h.nextConn in r.closed
      && forall c :: c in r.closed ==> c < h.nextConn + 1
  {
    assert [Subscribe(true), Subscribe(true)][1..] == [Subscribe(true)];
    assert Run(Subscribed(h), [Subscribe(true)], guarded) == Subscribed(Subscribed(h));
  }

  /** A run split in two is the second part run from where the first ends. */
  lemma {:induction false} SplitRun(h: Hub, a: seq<Event>, b: seq<Event>, guarded: bool)
    ensures Run(h, a + b, guarded) == Run(Run(h, a, guarded), b, guarded)
    decreases |a|
  {
    if a == [] {
      assert a + b == b;
    } else {
      assert (a + b)[0] == a[0];
      assert (a + b)[1..] == a[1..] + b;
      SplitRun(Step(h, a[0], guarded), a[1..], b, guarded);
    }
  }

  /**
   * A run of reconnects: successful subscribes, and read-loop exits of
   * connections that no longer hold the slot (each such loop ends because
   * the subscribe that replaced it closed its connection).
   */
  predicate Reconnects(h: Hub, es: seq<Event>, guarded: bool)
    decreases |es|
  {
    es == [] ||
    ((es[0] == Subscribe(true) || (es[0].ReadError? && h.current != Some(es[0].conn)))
     && Reconnects(Step(h, es[0], guarded), es[1..], guarded))
  }

  /**
   * With the guarded exit, reconnects never empty the slot: once anyone has
   * subscribed, the last subscriber holds the slot and every connection
   * upgraded before it, and the earlier holder, is closed.
   */
  lemma {:induction false} GuardedReconnectsKeepLast(h: Hub, es: seq<Event>)
    requires Reconnects(h, es, true)
    ensures var r := Run(h, es, true);
      && r.nextConn >= h.nextConn
      && h.closed <= r.closed
      && r.sent == h.sent
      && (Subscribe(true) in es <==> r.nextConn > h.nextConn)
      && (r.nextConn == h.nextConn ==> r == h)
      && (r.nextConn > h.nextConn ==>
            && r.current == Some(r.nextConn - 1)
            && (forall c :: h.nextConn <= c < r.nextConn - 1 ==> c in r.closed)
            && (h.current.Some? ==> h.current.value in r.closed))
    decreases |es|
  {
    if es != [] {
      var h1 := Step(h, es[0], true);
      assert es == [es[0]] + es[1..];
      GuardedReconnectsKeepLast(h1, es[1..]);
      if es[0] != Subscribe(true) {
        assert h1 == h;
      }
    }
  }

  /** With the guarded exit, exits of replaced read loops alone change nothing. */
  lemma {:induction false} GuardedStaleExitsChangeNothing(h: Hub, es: seq<Event>)
    requires Reconnects(h, es, true) && Subscribe(true) !in es
    ensures Run(h, es, true) == h
  {
    GuardedReconnectsKeepLast(h, es);
  }

  /**
   * Hence, with the guarded exit, after any run of reconnects containing a
   * subscribe, exactly one connection upgraded so far is open: the last
   * subscriber, which holds the slot.
   */
  lemma GuardedSingleOpenConnection(h: Hub, es: seq<Event>)
    requires Inv(h) && Reconnects(h, es, true) && Subscribe(true) in es
    requires forall c :: c < h.nextConn && Some(c) != h.current ==> c in h.closed
    ensures var r := Run(h, es, true);
      && r.current == Some(r.nextConn - 1)
      && r.nextConn - 1 !in r.closed
      && forall c :: c < r.nextConn - 1 ==> c in r.closed
  {
    GuardedReconnectsKeepLast(h, es);
    RunPreservesInv(h, es, true);
  }

  /**
   * With the guarded exit, the current subscriber leaves the slot only by
   * being replaced, by its own read error, or by a failed write: stale read
   * loops and successful publishes never remove it.
   */
  lemma {:induction false} GuardedKeepsSubscriber(h: Hub, c: ConnId, es: seq<Event>)
    requires h.current == Some(c)
    requires forall i :: 0 <= i < |es| ==>
      es[i] != Subscribe(true) && es[i] != ReadError(c) && !(es[i].Publish? && !es[i].writeOk)
    ensures Run(h, es, true).current == Some(c)
    decreases |es|
  {
    if es != [] {
      var e := es[0];
      assert e != Subscribe(true) && e != ReadError(c) && !(e.Publish? && !e.writeOk);
      assert Step(h, e, true).current == Some(c);
      GuardedKeepsSubscriber(Step(h, e, true), c, es[1..]);
    }
  }

  /** The guarded exit still clears the slot when the loop's own connection holds it. */
  lemma GuardedOwnErrorClears(h: Hub, c: ConnId, es: seq<Event>)
    requires h.current == Some(c)
    ensures Run(h, [ReadError(c)] + es, true) == Run(h.(current := None), es, true)
  {
    assert ([ReadError(c)] + es)[1..] == es;
  }

  // ---------------------------------------------------------------------
  // The package-level slot and its lock, as an object

  /** `wsConn` together with `wsLock`; every method is one critical section. */
  class ProgressChannel {
    var current: Option<ConnId>
    var nextConn: ConnId
    var closed: set<ConnId>
    var sent: map<ConnId, seq<Frame>>

    function State(): Hub
      reads this
    {
      Hub(current, nextConn, closed, sent)
    }

    predicate Valid()
      reads this
    {
      Inv(State())
    }

    constructor ()
      ensures Valid() && State() == Initial
    {
      current, nextConn, closed, sent := None, 0, {}, map[];
    }

    /**
     * `ProgressWebSocketHandler` up to its read loop: a failed upgrade
     * returns before the lock and touches nothing; a successful one closes
     * the previous connection and installs the new one.
     */
    method Subscribe(upgradeOk: bool) returns (conn: Option<ConnId>)
      requires Valid()
      modifies this
      ensures Valid()
      ensures !upgradeOk ==> conn == None && State() == old(State())
      ensures upgradeOk ==> conn == Some(old(nextConn)) && State() == Subscribed(old(State()))
    {
      if !upgradeOk {
        return None;
      }
      var c := nextConn;
      nextConn := nextConn + 1;
      if current.Some? {
        closed := closed + {current.value};
      }
      current := Some(c);
      conn := Some(c);
    }

    /**
     * The read loop, over the outcomes of successive `ReadMessage` calls
     * (true: a message arrived and is discarded). While reads succeed the
     * slot is left alone; at the first error the slot is cleared, without
     * checking whose connection it holds, and the handler returns. If no
     * read fails the loop is still running.
     */
    method ReadLoop(readOks: seq<bool>) returns (disconnected: bool)
      requires Valid()
      modifies this
      ensures Valid()
      ensures disconnected <==> false in readOks
      ensures State() == if disconnected then ReadFailed(old(State())) else old(State())
    {
      var i := 0;
      while i < |readOks|
        invariant 0 <= i <= |readOks|
        invariant false !in readOks[..i]
        invariant State() == old(State())
      {
        if !readOks[i] {
          current := None;
          return true;
        }
        assert readOks[..i + 1] == readOks[..i] + [readOks[i]];
        i := i + 1;
      }
      assert readOks[..i] == readOks;
      disconnected := false;
    }

    /** The read loop with the corrected exit: clear the slot only if it holds `own`. */
    method ReadLoopGuarded(own: ConnId, readOks: seq<bool>) returns (disconnected: bool)
      requires Valid()
      modifies this
      ensures Valid()
      ensures disconnected <==> false in readOks
      ensures State() == if disconnected then ReadFailedGuarded(old(State()), own) else old(State())
    {
      var i := 0;
      while i < |readOks|
        invariant 0 <= i <= |readOks|
        invariant false !in readOks[..i]
        invariant State() == old(State())
      {
        if !readOks[i] {
          if current == Some(own) {
            current := None;
          }
          return true;
        }
        assert readOks[..i + 1] == readOks[..i] + [readOks[i]];
        i := i + 1;
      }
      assert readOks[..i] == readOks;
      disconnected := false;
    }

    /**
     * `SendProgress`: no result reaches the caller. With no subscriber the
     * message is dropped; a successful write appends one text frame; a
     * failed write closes the connection and clears the slot.
     */
    method SendProgress(fileName: string, progress: Float64, writeOk: bool)
      requires Valid()
      modifies this
      ensures Valid()
      ensures State() == Published(old(State()), ProgressMessage(fileName, progress), writeOk)
    {
      if current == None {
        return;
      }
      var c := current.value;
      var msg := ProgressMessage(fileName, progress);
      if writeOk {
        var log := if c in sent then sent[c] else [];
        sent := sent[c := log + [Frame(TextMessage, msg)]];
      } else {
        closed := closed + {c};
        current := None;
      }
    }
  }
}
