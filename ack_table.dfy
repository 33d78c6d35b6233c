/** The table of outstanding acks of the Socket.IO client
    (socketio/src/asynchronous/client/client.rs): which entries an incoming
    ack packet matches, which callbacks it fires, and how the matched
    entries are removed from the vector. `handle_ack` removes the matched
    positions in ascending order, so every removal after the first hits a
    shifted position; the functions below model both that order and the
    descending order that removes exactly the matched entries. */
module Acks {
  import opened Common
  import opened SocketTypes

  /** An outstanding ack: its id, how long it may wait, when it was
      started (a clock reading) and the callback to fire. Durations and
      instants are integers in one unit. */
  datatype Ack = Ack(id: int, timeout: nat, started: nat, callback: Handler)

  /** `time_started.elapsed()` at clock reading `now`: the time since the
      start, and zero when the clock reads earlier. */
  function Elapsed(a: Ack, now: nat): (e: nat)
    ensures now >= a.started ==> e + a.started == now
    ensures now < a.started ==> e == 0
  {
    if now >= a.started then now - a.started else 0
  }

  /** The ack may still fire: less time than its timeout has passed. */
  predicate Live(a: Ack, now: nat)
  {
    Elapsed(a, now) < a.timeout
  }

  /** The positions whose id equals `id`, in ascending order: what the
      `enumerate` loop collects in `to_be_removed`. */
  function MatchingIndices(acks: seq<Ack>, id: int): seq<nat>
  {
    if acks == [] then []
    else
      var n := |acks| - 1;
      MatchingIndices(acks[..n], id) + (if acks[n].id == id then [n] else [])
  }

  /** `MatchingIndices` lists, in ascending order, exactly the positions
      whose entry carries the id. */
  lemma {:induction false} MatchingIndicesExact(acks: seq<Ack>, id: int)
    ensures forall k | 0 <= k < |MatchingIndices(acks, id)| ::
      MatchingIndices(acks, id)[k] < |acks| && acks[MatchingIndices(acks, id)[k]].id == id
    ensures forall j | 0 <= j < |acks| && acks[j].id == id :: j in MatchingIndices(acks, id)
    ensures forall k, l | 0 <= k < l < |MatchingIndices(acks, id)| ::
      MatchingIndices(acks, id)[k] < MatchingIndices(acks, id)[l]
  {
    if acks != [] {
      var n := |acks| - 1;
      MatchingIndicesExact(acks[..n], id);
      assert forall j | 0 <= j < n :: acks[..n][j] == acks[j];
    }
  }

  /** The entries whose id differs from `id`, in their order: the table
      an ack packet for `id` should leave behind. */
  function Retained(acks: seq<Ack>, id: int): seq<Ack>
  {
    if acks == [] then []
    else
      var n := |acks| - 1;
      Retained(acks[..n], id) + (if acks[n].id == id then [] else [acks[n]])
  }

  /** No entry with the acknowledged id survives, and every other entry
      does. */
  lemma {:induction false} RetainedFilters(acks: seq<Ack>, id: int)
    ensures forall a | a in Retained(acks, id) :: a in acks && a.id != id
    ensures forall a | a in acks && a.id != id :: a in Retained(acks, id)
    ensures |Retained(acks, id)| + |MatchingIndices(acks, id)| == |acks|
  {
    if acks != [] {
      var n := |acks| - 1;
      RetainedFilters(acks[..n], id);
      assert acks == acks[..n] + [acks[n]];
    }
  }

  /** `Vec::remove(index)`. */
  function RemoveAt(s: seq<Ack>, i: nat): (r: seq<Ack>)
    requires i < |s|
    ensures |r| == |s| - 1
    ensures forall j | 0 <= j < i :: r[j] == s[j]
    ensures forall j | i <= j < |r| :: r[j] == s[j + 1]
  {
    s[..i] + s[i + 1..]
  }

  /** `for index in order { v.remove(index) }`: the vector after removing
      at each index in turn, or None when an index is past the end at its
      turn (where `Vec::remove` panics). */
  function RemoveAll(s: seq<Ack>, order: seq<nat>): Option<seq<Ack>>
    decreases |order|
  {
    if order == [] then Some(s)
    else if order[0] < |s| then RemoveAll(RemoveAt(s, order[0]), order[1..])
    else None
  }

  function Reversed(s: seq<nat>): (r: seq<nat>)
    ensures |r| == |s|
    ensures forall k | 0 <= k < |s| :: r[k] == s[|s| - 1 - k]
  {
    if s == [] then [] else [s[|s| - 1]] + Reversed(s[..|s| - 1])
  }

  /** Removals below the end leave a last entry where it is. */
  lemma {:induction false} RemoveAllKeepsLast(p: seq<Ack>, x: Ack, order: seq<nat>)
    requires RemoveAll(p, order).Some?
    ensures RemoveAll(p + [x], order) == Some(RemoveAll(p, order).value + [x])
    decreases |order|
  {
    if order != [] {
      var i := order[0];
      assert RemoveAt(p + [x], i) == RemoveAt(p, i) + [x];
      RemoveAllKeepsLast(RemoveAt(p, i), x, order[1..]);
    }
  }

  lemma ReversedSnoc(m: seq<nat>, n: nat)
    ensures Reversed(m + [n]) == [n] + Reversed(m)
  {
    assert (m + [n])[..|m|] == m;
  }

  /** Removing at position `i` first and then the rest of `order`. */
  lemma RemoveAllFirst(s: seq<Ack>, i: nat, order: seq<nat>)
    requires i < |s|
    ensures RemoveAll(s, [i] + order) == RemoveAll(RemoveAt(s, i), order)
  {
    assert ([i] + order)[0] == i && ([i] + order)[1..] == order;
  }

  /** The step of the proof below when the last entry is matched: it is
      removed first, and what remains is the prefix's case. */
  lemma DescendingRemovalMatchedLast(acks: seq<Ack>, id: int)
    requires acks != [] && acks[|acks| - 1].id == id
    requires RemoveAll(acks[..|acks| - 1], Reversed(MatchingIndices(acks[..|acks| - 1], id)))
      == Some(Retained(acks[..|acks| - 1], id))
    ensures RemoveAll(acks, Reversed(MatchingIndices(acks, id))) == Some(Retained(acks, id))
  {
    var n := |acks| - 1;
    var m := MatchingIndices(acks[..n], id);
    assert MatchingIndices(acks, id) == m + [n];
    ReversedSnoc(m, n);
    RemoveAllFirst(acks, n, Reversed(m));
    assert RemoveAt(acks, n) == acks[..n];
    assert Retained(acks, id) == Retained(acks[..n], id) + [];
    assert Retained(acks[..n], id) + [] == Retained(acks[..n], id);
    assert Reversed(MatchingIndices(acks, id)) == [n] + Reversed(m);
    calc {
      RemoveAll(acks, Reversed(MatchingIndices(acks, id)));
      RemoveAll(acks, [n] + Reversed(m));
      RemoveAll(acks[..n], Reversed(m));
      Some(Retained(acks[..n], id));
      Some(Retained(acks, id));
    }
  }

  /** The step when the last entry is not matched: every removal happens
      below it, so it stays at the end. */
  lemma DescendingRemovalUnmatchedLast(acks: seq<Ack>, id: int)
    requires acks != [] && acks[|acks| - 1].id != id
    requires RemoveAll(acks[..|acks| - 1], Reversed(MatchingIndices(acks[..|acks| - 1], id)))
      == Some(Retained(acks[..|acks| - 1], id))
    ensures RemoveAll(acks, Reversed(MatchingIndices(acks, id))) == Some(Retained(acks, id))
  {
    var n := |acks| - 1;
    UnmatchedLastParts(acks, id);
    RemoveAllKeepsLast(acks[..n], acks[n], Reversed(MatchingIndices(acks[..n], id)));
  }

  /** An unmatched last entry adds no match and is retained at the end. */
  lemma UnmatchedLastParts(acks: seq<Ack>, id: int)
    requires acks != [] && acks[|acks| - 1].id != id
    ensures acks == acks[..|acks| - 1] + [acks[|acks| - 1]]
    ensures MatchingIndices(acks, id) == MatchingIndices(acks[..|acks| - 1], id)
    ensures Retained(acks, id) == Retained(acks[..|acks| - 1], id) + [acks[|acks| - 1]]
  {
  }

  /** Removing the matched positions from the highest down removes exactly
      the matched entries: the result is `Retained`, and no removal
      panics. */
  lemma {:induction false} DescendingRemovalRetains(acks: seq<Ack>, id: int)
    ensures RemoveAll(acks, Reversed(MatchingIndices(acks, id))) == Some(Retained(acks, id))
  {
    if acks != [] {
      var n := |acks| - 1;
      DescendingRemovalRetains(acks[..n], id);
      if acks[n].id == id {
        DescendingRemovalMatchedLast(acks, id);
      } else {
        DescendingRemovalUnmatchedLast(acks, id);
      }
    }
  }

  /** With a single matching entry the order does not matter, so the
      source's ascending removal is correct when ids are unique. */
  lemma AscendingRemovalOfSingleMatch(acks: seq<Ack>, id: int)
    requires |MatchingIndices(acks, id)| == 1
    ensures RemoveAll(acks, MatchingIndices(acks, id)) == Some(Retained(acks, id))
  {
    var m := MatchingIndices(acks, id);
    assert Reversed(m) == m;
    DescendingRemovalRetains(acks, id);
  }

  /** Two leading entries with the acknowledged id are matched at 0 and 1. */
  lemma TwoMatches(a: Ack, b: Ack, id: int)
    requires a.id == id && b.id == id
    ensures MatchingIndices([a, b], id) == [0, 1]
    ensures Retained([a, b], id) == []
  {
    assert [a, b][..1] == [a];
    assert [a][..0] == [];
    assert MatchingIndices([a], id) == [0];
    assert Retained([a], id) == [];
  }

  /** Three acks where the first two share the acknowledged id: ascending
      removal takes out the first and then, at the shifted position 1, the
      third, which was never acknowledged, and keeps the second. */
  lemma AscendingRemovalDropsWrongAck(h: Handler)
    ensures var acks := [Ack.Ack(5, 10, 0, h), Ack.Ack(5, 10, 0, h + 1), Ack.Ack(7, 10, 0, h + 2)];
      MatchingIndices(acks, 5) == [0, 1]
      && RemoveAll(acks, MatchingIndices(acks, 5)) == Some([Ack.Ack(5, 10, 0, h + 1)])
      && Retained(acks, 5) == [Ack.Ack(7, 10, 0, h + 2)]
  {
    var a, b, c := Ack.Ack(5, 10, 0, h), Ack.Ack(5, 10, 0, h + 1), Ack.Ack(7, 10, 0, h + 2);
    var acks := [a, b, c];
    assert acks[..2] == [a, b];
    TwoMatches(a, b, 5);
    assert MatchingIndices(acks, 5) == [0, 1];
    RemoveAllFirst(acks, 0, [1]);
    assert RemoveAt(acks, 0) == [b, c];
    RemoveAllFirst([b, c], 1, []);
    assert RemoveAt([b, c], 1) == [b];
  }

  /** Two acks with the acknowledged id: after the first removal the
      vector has one entry, so removing at position 1 panics. */
  lemma AscendingRemovalPanics(h: Handler)
    ensures var acks := [Ack.Ack(5, 10, 0, h), Ack.Ack(5, 10, 0, h + 1)];
      MatchingIndices(acks, 5) == [0, 1] && RemoveAll(acks, MatchingIndices(acks, 5)) == None
  {
    var a, b := Ack.Ack(5, 10, 0, h), Ack.Ack(5, 10, 0, h + 1);
    TwoMatches(a, b, 5);
    RemoveAllFirst([a, b], 0, [1]);
    assert RemoveAt([a, b], 0) == [b];
    assert [1][0] == 1;
  }

  /** The calls one matched ack makes: nothing once timed out; otherwise
      the text data first, then the first attachment, each when present. */
  function AckCalls(a: Ack, data: Option<string>, attachments: Option<seq<seq<byte>>>, now: nat): seq<Invocation>
  {
    if !Live(a, now) then []
    else
      (if data.Some? then [AckCall(a.id, a.callback, Text(data.value))] else [])
      + (if attachments.Some? && |attachments.value| > 0
         then [AckCall(a.id, a.callback, Binary(attachments.value[0]))] else [])
  }

  /** The calls an ack packet for `id` makes, entry by entry in table
      order; entries with another id make none. */
  function AckFires(acks: seq<Ack>, id: int, data: Option<string>,
                    attachments: Option<seq<seq<byte>>>, now: nat): seq<Invocation>
  {
    if acks == [] then []
    else
      var n := |acks| - 1;
      AckFires(acks[..n], id, data, attachments, now)
        + (if acks[n].id == id then AckCalls(acks[n], data, attachments, now) else [])
  }

  /** Only live matching entries fire: when every entry with the id has
      timed out, or none has it, no callback runs. */
  lemma {:induction false} NoLiveMatchFiresNothing(acks: seq<Ack>, id: int, data: Option<string>,
                                                   attachments: Option<seq<seq<byte>>>, now: nat)
    requires forall j | 0 <= j < |acks| && acks[j].id == id :: !Live(acks[j], now)
    ensures AckFires(acks, id, data, attachments, now) == []
  {
    if acks != [] {
      var n := |acks| - 1;
      NoLiveMatchFiresNothing(acks[..n], id, data, attachments, now);
    }
  }

  /** Every call goes to the callback of an entry with the acknowledged
      id that has not timed out, and carries that id. */
  lemma {:induction false} FiresOnlyMatches(acks: seq<Ack>, id: int, data: Option<string>,
                                            attachments: Option<seq<seq<byte>>>, now: nat)
    ensures forall c | c in AckFires(acks, id, data, attachments, now) ::
      c.AckCall? && c.ackId == id && exists j | 0 <= j < |acks| ::
        acks[j].id == id && acks[j].callback == c.handler && Live(acks[j], now)
  {
    if acks != [] {
      var n := |acks| - 1;
      FiresOnlyMatches(acks[..n], id, data, attachments, now);
      forall c | c in AckFires(acks, id, data, attachments, now)
        ensures c.AckCall? && c.ackId == id && exists j | 0 <= j < |acks| ::
          acks[j].id == id && acks[j].callback == c.handler && Live(acks[j], now)
      {
        if c in AckFires(acks[..n], id, data, attachments, now) {
          var j :| 0 <= j < n && acks[..n][j].id == id && acks[..n][j].callback == c.handler
            && Live(acks[..n][j], now);
          assert acks[j] == acks[..n][j];
        } else {
          assert acks[n].id == id && acks[n].callback == c.handler && Live(acks[n], now);
        }
      }
    }
  }

  /** Conversely, every entry with the acknowledged id that has not timed
      out has its callback called with the text data, when there is any,
      and with the first attachment, when there is one. */
  lemma {:induction false} LiveMatchFires(acks: seq<Ack>, id: int, data: Option<string>,
                                          attachments: Option<seq<seq<byte>>>, now: nat, j: nat)
    requires j < |acks| && acks[j].id == id && Live(acks[j], now)
    ensures data.Some? ==> AckCall(id, acks[j].callback, Text(data.value)) in AckFires(acks, id, data, attachments, now)
    ensures attachments.Some? && |attachments.value| > 0 ==>
      AckCall(id, acks[j].callback, Binary(attachments.value[0])) in AckFires(acks, id, data, attachments, now)
  {
    var n := |acks| - 1;
    if j < n {
      assert acks[..n][j] == acks[j];
      LiveMatchFires(acks[..n], id, data, attachments, now, j);
    }
  }
}
